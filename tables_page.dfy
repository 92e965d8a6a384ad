/** The tables page: an "all" / "booked" tab over the table list, with the
    count shown on each tab. The list is `None` until the query has data. */
module TablesPage {
  import opened Common
  import opened Records

  /** "booked" keeps the booked tables; "all" and any other tab keep every
      table. */
  function TabKeeps(tab: string): DiningTable -> bool
  {
    (t: DiningTable) =>
      if tab == "all" then true
      else if tab == "booked" then t.status == Booked
      else true
  }

  lemma TabFilterMeaning(ts: seq<DiningTable>, tab: string)
    ensures tab == "booked" ==> Filter(ts, TabKeeps(tab)) == Filter(ts, TableStatusIs(Booked))
    ensures tab != "booked" ==> Filter(ts, TabKeeps(tab)) == ts
  {
    if tab == "booked" {
      FilterCongruent(ts, TabKeeps(tab), TableStatusIs(Booked));
    } else {
      FilterKeepsAll(ts, TabKeeps(tab));
    }
  }

  /** `filteredTables`: no data stays no data; "booked" shows exactly the
      booked tables in list order, every other tab the whole list. */
  function FilteredTables(data: Option<seq<DiningTable>>, tab: string): (r: Option<seq<DiningTable>>)
    ensures r.Some? <==> data.Some?
    ensures data.Some? && tab == "booked" ==>
              r.value == Filter(data.value, TableStatusIs(Booked))
              && forall t :: t in r.value ==> t in data.value && t.status == Booked
    ensures data.Some? && tab != "booked" ==> r.value == data.value
  {
    if data.None? then None
    else
      TabFilterMeaning(data.value, tab);
      Some(Filter(data.value, TabKeeps(tab)))
  }

  datatype TabCounts = TabCounts(all: nat, booked: nat)

  /** `resData?.length || 0` and the booked count, 0 while there is no
      data. */
  function CountsOf(data: Option<seq<DiningTable>>): (c: TabCounts)
    ensures data.None? ==> c == TabCounts(0, 0)
    ensures data.Some? ==> c.all == |data.value|
    ensures c.booked <= c.all
  {
    if data.None? then TabCounts(0, 0)
    else TabCounts(|data.value|, Count(data.value, TableStatusIs(Booked)))
  }

  /** The count on a tab is the number of tables that tab shows. */
  lemma CountsMatchTabs(data: Option<seq<DiningTable>>)
    requires data.Some?
    ensures CountsOf(data).all == |FilteredTables(data, "all").value|
    ensures CountsOf(data).booked == |FilteredTables(data, "booked").value|
  {
  }
}
