/** The menu hook: it groups the menu items by category, in the order the
    categories first appear, into the tabs the menu screen shows. The two
    fetches are inputs here (`None` while a query has no data yet). */
module UseMenu {
  import opened Common

  datatype Category = Category(id: string, name: string, icon: string, bgColor: string)

  /** An item's `category` field: populated by the backend, a bare
      category id, or missing. */
  datatype CategoryField = Populated(cat: Category) | Reference(ref: string) | NoCategory

  datatype MenuItem = MenuItem(id: string, name: string, price: real, isAvailable: bool, category: CategoryField)

  /** One tab of the menu screen: a category and its items. */
  datatype MenuGroup = MenuGroup(id: string, name: string, icon: string, bgColor: string, items: seq<MenuItem>)

  const DefaultName: string := "Uncategorized"
  const DefaultIcon: string := "\U{1F37D}\U{FE0F}"
  const DefaultColor: string := "#5b45b0"

  /** `item.category?._id || item.category`, as the property key it becomes:
      a populated category without an id is the object itself, whose key is
      "[object Object]"; a missing category is the key "undefined". A
      populated category and a bare reference to the same id get the same
      key, so they land in one group. */
  function KeyOf(item: MenuItem): (k: string)
    ensures item.category.Populated? && item.category.cat.id != "" ==> k == item.category.cat.id
    ensures item.category.Reference? ==> k == item.category.ref
    ensures item.category.NoCategory? ==> k == "undefined"
  {
    match item.category
    case Populated(c) => if c.id != "" then c.id else "[object Object]"
    case Reference(r) => r
    case NoCategory => "undefined"
  }

  function HasKey(k: string): MenuItem -> bool
  {
    (item: MenuItem) => KeyOf(item) == k
  }

  /** The empty group the first item seen with a key creates: name, icon
      and colour from its category, or the defaults. */
  function NewGroup(item: MenuItem): MenuGroup
  {
    match item.category
    case Populated(c) =>
      MenuGroup(KeyOf(item),
                if c.name != "" then c.name else DefaultName,
                if c.icon != "" then c.icon else DefaultIcon,
                if c.bgColor != "" then c.bgColor else DefaultColor,
                [])
    case _ => MenuGroup(KeyOf(item), DefaultName, DefaultIcon, DefaultColor, [])
  }

  /** The keys of `s`, each once, in the order they first appear. */
  function Keys(s: seq<MenuItem>): (ks: seq<string>)
    ensures forall i, j :: 0 <= i < j < |ks| ==> ks[i] != ks[j]
    ensures forall i :: 0 <= i < |s| ==> KeyOf(s[i]) in ks
  {
    if s == [] then []
    else
      var ks := Keys(s[..|s| - 1]);
      assert forall i :: 0 <= i < |s| - 1 ==> s[i] == s[..|s| - 1][i];
      if KeyOf(s[|s| - 1]) in ks then ks else ks + [KeyOf(s[|s| - 1])]
  }

  lemma KeysStep(s: seq<MenuItem>, x: MenuItem)
    ensures Keys(s + [x]) == if KeyOf(x) in Keys(s) then Keys(s) else Keys(s) + [KeyOf(x)]
  {
    assert (s + [x])[..|s|] == s;
  }

  /** The group of key `k` after the reduce has seen `s`, step by step as
      the accumulator builds it. */
  function Group(s: seq<MenuItem>, k: string): (g: MenuGroup)
    requires k in Keys(s)
    ensures g.id == k
    decreases |s|
  {
    var init, x := s[..|s| - 1], s[|s| - 1];
    if KeyOf(x) != k then Group(init, k)
    else if k in Keys(init) then Group(init, k).(items := Group(init, k).items + [x])
    else NewGroup(x).(items := [x])
  }

  lemma GroupStep(s: seq<MenuItem>, x: MenuItem, k: string)
    requires k in Keys(s + [x])
    ensures KeyOf(x) != k ==> k in Keys(s) && Group(s + [x], k) == Group(s, k)
    ensures KeyOf(x) == k && k in Keys(s) ==>
              Group(s + [x], k) == Group(s, k).(items := Group(s, k).items + [x])
    ensures KeyOf(x) == k && k !in Keys(s) ==> Group(s + [x], k) == NewGroup(x).(items := [x])
  {
    assert (s + [x])[..|s|] == s;
    KeysStep(s, x);
  }

  lemma FilterStep(s: seq<MenuItem>, x: MenuItem, k: string)
    ensures Filter(s + [x], HasKey(k)) == Filter(s, HasKey(k)) + (if KeyOf(x) == k then [x] else [])
  {
    assert (s + [x])[..|s|] == s;
  }

  /** A key that no item of `s` has selects nothing. */
  lemma NoItemsWithoutKey(s: seq<MenuItem>, k: string)
    requires k !in Keys(s)
    ensures Filter(s, HasKey(k)) == []
  {
    assert forall y :: y in Filter(s, HasKey(k)) ==> y in s && KeyOf(y) == k;
  }

  /** The group of `k` holds exactly the items with key `k`, in input order,
      and takes its name, icon and colour from the first of them. */
  lemma {:induction false} GroupIsFilter(s: seq<MenuItem>, k: string)
    requires k in Keys(s)
    ensures |Filter(s, HasKey(k))| >= 1
    ensures Group(s, k) == NewGroup(Filter(s, HasKey(k))[0]).(items := Filter(s, HasKey(k)))
  {
    var init, x := s[..|s| - 1], s[|s| - 1];
    assert s == init + [x];
    GroupStep(init, x, k);
    FilterStep(init, x, k);
    if KeyOf(x) != k || k in Keys(init) {
      GroupIsFilter(init, k);
    } else {
      NoItemsWithoutKey(init, k);
    }
  }

  // Sizes: the partition law.

  /** The number of items of `s` whose key is in `ks`, key by key. */
  function Sizes(s: seq<MenuItem>, ks: seq<string>): nat
  {
    if ks == [] then 0 else Sizes(s, ks[..|ks| - 1]) + Count(s, HasKey(ks[|ks| - 1]))
  }

  /** The number of items in a list of groups. */
  function TotalItems(groups: seq<MenuGroup>): nat
  {
    if groups == [] then 0 else TotalItems(groups[..|groups| - 1]) + |groups[|groups| - 1].items|
  }

  lemma {:induction false} SizesStep(init: seq<MenuItem>, x: MenuItem, ks: seq<string>)
    requires forall i, j :: 0 <= i < j < |ks| ==> ks[i] != ks[j]
    ensures Sizes(init + [x], ks) == Sizes(init, ks) + (if KeyOf(x) in ks then 1 else 0)
  {
    if ks != [] {
      var ks' := ks[..|ks| - 1];
      SizesStep(init, x, ks');
      assert (init + [x])[..|init|] == init;
      assert ks == ks' + [ks[|ks| - 1]];
    }
  }

  /** Every item lands in exactly one group: the group sizes add up to the
      number of items. */
  lemma {:induction false} Partition(s: seq<MenuItem>)
    ensures Sizes(s, Keys(s)) == |s|
  {
    if s != [] {
      var init, x := s[..|s| - 1], s[|s| - 1];
      assert s == init + [x];
      Partition(init);
      SizesStep(init, x, Keys(init));
      if KeyOf(x) !in Keys(init) {
        var ks := Keys(init) + [KeyOf(x)];
        assert ks[..|ks| - 1] == Keys(init);
        NoItemsWithoutKey(init, KeyOf(x));
        FilterAppend(init, [x], HasKey(KeyOf(x)));
        assert Filter([x], HasKey(KeyOf(x))) == [x] by { assert [x][..0] == []; }
      }
    }
  }

  lemma {:induction false} TotalItemsIsSizes(s: seq<MenuItem>, ks: seq<string>, groups: seq<MenuGroup>)
    requires |groups| == |ks|
    requires forall i :: 0 <= i < |ks| ==> |groups[i].items| == Count(s, HasKey(ks[i]))
    ensures TotalItems(groups) == Sizes(s, ks)
  {
    if ks != [] {
      TotalItemsIsSizes(s, ks[..|ks| - 1], groups[..|groups| - 1]);
    }
  }

  /** The reduce and `Object.values` of the hook: the groups in the order
      their keys first appear. */
  method GroupByCategory(items: seq<MenuItem>) returns (menus: seq<MenuGroup>)
    ensures |menus| == |Keys(items)|
    ensures forall i :: 0 <= i < |menus| ==> menus[i].id == Keys(items)[i]
    ensures forall i :: 0 <= i < |menus| ==> menus[i].items == Filter(items, HasKey(menus[i].id))
    ensures forall i :: 0 <= i < |menus| ==>
              menus[i].items != [] && menus[i] == NewGroup(menus[i].items[0]).(items := menus[i].items)
    ensures TotalItems(menus) == |items|
  {
    var acc: map<string, MenuGroup> := map[];
    var order: seq<string> := [];
    for i := 0 to |items|
      invariant order == Keys(items[..i])
      invariant forall k :: k in acc <==> k in order
      invariant forall k :: k in acc ==> k in Keys(items[..i]) && acc[k] == Group(items[..i], k)
    {
      var item := items[i];
      var key := KeyOf(item);
      ghost var seen := items[..i];
      assert items[..i + 1] == seen + [item];
      KeysStep(seen, item);
      if key !in acc {
        acc := acc[key := NewGroup(item)];
        order := order + [key];
      }
      acc := acc[key := acc[key].(items := acc[key].items + [item])];
      forall k | k in acc
        ensures k in Keys(seen + [item]) && acc[k] == Group(seen + [item], k)
      {
        GroupStep(seen, item, k);
      }
    }
    assert items[..|items|] == items;
    menus := seq(|order|, j requires 0 <= j < |order| => acc[order[j]]);
    GroupsMeetSpec(items, menus);
  }

  /** The groups built key by key are the filters of the input by key. */
  lemma GroupsMeetSpec(items: seq<MenuItem>, menus: seq<MenuGroup>)
    requires |menus| == |Keys(items)|
    requires forall i :: 0 <= i < |menus| ==> menus[i] == Group(items, Keys(items)[i])
    ensures forall i :: 0 <= i < |menus| ==> menus[i].id == Keys(items)[i]
    ensures forall i :: 0 <= i < |menus| ==> menus[i].items == Filter(items, HasKey(menus[i].id))
    ensures forall i :: 0 <= i < |menus| ==>
              menus[i].items != [] && menus[i] == NewGroup(menus[i].items[0]).(items := menus[i].items)
    ensures TotalItems(menus) == |items|
  {
    forall i | 0 <= i < |menus|
      ensures menus[i].items == Filter(items, HasKey(menus[i].id))
      ensures menus[i].items != [] && menus[i] == NewGroup(menus[i].items[0]).(items := menus[i].items)
    {
      GroupIsFilter(items, Keys(items)[i]);
    }
    TotalItemsIsSizes(items, Keys(items), menus);
    Partition(items);
  }

  /** What the hook returns. */
  datatype MenuView = MenuView(
    menus: seq<MenuGroup>,
    categories: seq<Category>,
    menuItems: seq<MenuItem>,
    isLoading: bool,
    error: Option<string>)

  /** `useMenu()`, given the state of the two queries. */
  method UseMenu(
    categoriesData: Option<seq<Category>>, categoriesLoading: bool, categoriesError: Option<string>,
    menuItemsData: Option<seq<MenuItem>>, menuItemsLoading: bool, menuItemsError: Option<string>)
    returns (view: MenuView)
    ensures menuItemsData.None? ==> view.menus == [] && view.menuItems == []
    ensures menuItemsData.Some? ==>
              view.menuItems == menuItemsData.value && TotalItems(view.menus) == |menuItemsData.value|
    ensures menuItemsData.Some? ==>
              var items := menuItemsData.value;
              && |view.menus| == |Keys(items)|
              && (forall i :: 0 <= i < |view.menus| ==> view.menus[i].id == Keys(items)[i])
              && (forall i :: 0 <= i < |view.menus| ==>
                    view.menus[i].items == Filter(items, HasKey(view.menus[i].id)))
              && (forall i :: 0 <= i < |view.menus| ==>
                    view.menus[i].items != []
                    && view.menus[i] == NewGroup(view.menus[i].items[0]).(items := view.menus[i].items))
    ensures view.categories == if categoriesData.Some? then categoriesData.value else []
    ensures view.isLoading <==> categoriesLoading || menuItemsLoading
    ensures view.error == FirstPresent(categoriesError, menuItemsError)
  {
    var menus: seq<MenuGroup> := [];
    if menuItemsData.Some? {
      menus := GroupByCategory(menuItemsData.value);
    }
    view := MenuView(
      menus,
      if categoriesData.Some? then categoriesData.value else [],
      if menuItemsData.Some? then menuItemsData.value else [],
      categoriesLoading || menuItemsLoading,
      FirstPresent(categoriesError, menuItemsError));
  }
}
