/** A table tile on the tables page: clicking a free table binds it to the
    current session and opens the menu; a booked table ignores the click. */
module TableCard {
  import opened Common
  import opened Records
  import opened CustomerSlice

  /** `handleClick()` for a tile showing table `id`, number `tableNo`,
      status `status`: the session is bound to the table's id and number. */
  method HandleClick(store: CustomerStore, id: string, tableNo: int, status: string)
    returns (nav: Option<string>)
    modifies store
    ensures status == Booked ==> nav == None && unchanged(store)
    ensures status != Booked ==>
              nav == Some("/menu")
              && store.Snapshot() == old(store.Snapshot()).(table := Some(TableRef(id, tableNo)))
  {
    if status == Booked {
      return None;
    }
    store.UpdateTable(Some(TableRef(id, tableNo)));
    nav := Some("/menu");
  }
}
