/** The menu screen's order-taking state: the selected category tab and a
    per-item quantity picker, from which cart lines are built. */
module MenuContainer {
  import opened Common
  import opened UseMenu
  import opened Cart

  /** The most of one item a single add can carry. */
  const MaxCount: int := 10

  /** `Math.min(c + 1, 10)`: one more, up to the cap. */
  function Raised(c: int): (r: int)
    ensures r <= MaxCount
    ensures 0 <= c ==> 1 <= r
    ensures c < MaxCount ==> r == c + 1
    ensures c >= MaxCount ==> r == MaxCount
  {
    if c + 1 < MaxCount then c + 1 else MaxCount
  }

  /** `Math.max(c - 1, 0)`: one fewer, down to nothing. */
  function Lowered(c: int): (r: int)
    ensures 0 <= r
    ensures c <= MaxCount ==> r < MaxCount
    ensures 0 < c ==> r == c - 1
    ensures c <= 0 ==> r == 0
  {
    if c - 1 > 0 then c - 1 else 0
  }

  /** Below the cap, one more then one fewer comes back to the start; and
      above zero, one fewer then one more does too. */
  lemma RaiseLowerInverse(c: int)
    ensures 0 <= c < MaxCount ==> Lowered(Raised(c)) == c
    ensures 0 < c <= MaxCount ==> Raised(Lowered(c)) == c
  {
  }

  /** The cart line `handleAddToCart` builds for `count` of `item` at clock
      reading `now`: its id is the clock reading followed by the item id
      (a number plus a string concatenates), its total is the unit price
      times the count. */
  function NewCartLine(item: MenuItem, count: nat, now: nat): (l: CartLine)
    ensures 1 <= count <= MaxCount ==> WellFormedLine(l)
    ensures l.itemId == item.id && l.name == item.name && l.notes == ""
    ensures l.pricePerQuantity == item.price && l.quantity == count
  {
    CartLine(NatToString(now) + item.id, item.id, item.name, item.price, count, item.price * (count as real), "")
  }

  class MenuPicker {
    var selected: Option<MenuGroup>
    var itemCounts: map<string, int>

    /** Every recorded count lies in 0..10. */
    ghost predicate Valid()
      reads this
    {
      forall id :: id in itemCounts ==> 0 <= itemCounts[id] <= MaxCount
    }

    /** `itemCounts[id] || 0`: an item never touched counts as 0. */
    function CountFor(id: string): int
      reads this
    {
      if id in itemCounts then itemCounts[id] else 0
    }

    constructor ()
      ensures Valid() && selected == None && itemCounts == map[]
    {
      selected := None;
      itemCounts := map[];
    }

    /** The effect that selects the first tab once the menu has loaded and
        nothing is selected yet. */
    method SelectFirstWhenLoaded(menus: seq<MenuGroup>)
      modifies this
      ensures selected == if |menus| > 0 && old(selected).None? then Some(menus[0]) else old(selected)
      ensures itemCounts == old(itemCounts)
    {
      if |menus| > 0 && selected.None? {
        selected := Some(menus[0]);
      }
    }

    /** `increment(id)`: never above 10. */
    method Increment(id: string)
      requires Valid()
      modifies this
      ensures Valid() && selected == old(selected)
      ensures itemCounts == old(itemCounts)[id := Raised(old(CountFor(id)))]
      ensures old(CountFor(id)) < MaxCount ==> CountFor(id) == old(CountFor(id)) + 1
    {
      itemCounts := itemCounts[id := Raised(CountFor(id))];
    }

    /** `decrement(id)`: never below 0. */
    method Decrement(id: string)
      requires Valid()
      modifies this
      ensures Valid() && selected == old(selected)
      ensures itemCounts == old(itemCounts)[id := Lowered(old(CountFor(id)))]
      ensures old(CountFor(id)) > 0 ==> CountFor(id) == old(CountFor(id)) - 1
    {
      itemCounts := itemCounts[id := Lowered(CountFor(id))];
    }

    /** `handleAddToCart(item)`: refused at count 0 (nothing is added and no
        count changes); otherwise one well-formed line is appended to the
        cart and only this item's count goes back to 0. */
    method HandleAddToCart(item: MenuItem, cart: CartStore, now: nat) returns (added: bool)
      requires Valid()
      modifies this, cart
      ensures Valid() && selected == old(selected)
      ensures added <==> old(CountFor(item.id)) != 0
      ensures !added ==> cart.lines == old(cart.lines) && itemCounts == old(itemCounts)
      ensures added ==> cart.lines == old(cart.lines) + [NewCartLine(item, old(CountFor(item.id)), now)]
      ensures added ==> WellFormedLine(cart.lines[|cart.lines| - 1])
      ensures added ==> itemCounts == old(itemCounts)[item.id := 0]
    {
      var count := CountFor(item.id);
      if count == 0 {
        return false;
      }
      var line := NewCartLine(item, count, now);
      cart.AddItems(line);
      itemCounts := itemCounts[item.id := 0];
      added := true;
    }

    /** Clicking a category tab selects it and clears every count. */
    method SelectCategory(menu: MenuGroup)
      modifies this
      ensures Valid()
      ensures selected == Some(menu) && itemCounts == map[]
    {
      selected := Some(menu);
      itemCounts := map[];
    }
  }
}
