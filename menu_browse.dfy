/**
 * `CustomerMenuItemsView.get`, the public menu browse: find the restaurant,
 * find its menu, and list that menu's items as (id, name, description,
 * price) records in query order. It only reads.
 */
module MenuBrowse {
  import opened Tables
  import Restaurants

  /** A row of the menu-item table: it belongs to one menu. */
  datatype MenuItem = MenuItem(id: nat, menu: nat, name: string, description: string, price: int)

  /** One entry of the response list. */
  datatype ItemRecord = ItemRecord(id: nat, name: string, description: string, price: int)

  /** How the browse fails. */
  datatype BrowseError =
    | NotFound         // 404: no restaurant with that id, or it has no menu
    | MultipleObjects  // 500: the restaurant has more than one menu, so `get` raises

  function Record(item: MenuItem): ItemRecord {
    ItemRecord(item.id, item.name, item.description, item.price)
  }

  /** The list comprehension over the filtered items. */
  function Records(items: seq<MenuItem>): (r: seq<ItemRecord>)
    ensures |r| == |items|
  {
    seq(|items|, k requires 0 <= k < |items| => Record(items[k]))
  }

  /** `MenuItem.objects.filter(menu=menu)`. */
  function ItemsOfMenu(menuItems: seq<MenuItem>, menuId: nat): seq<MenuItem> {
    Filter(menuItems, (it: MenuItem) => it.menu == menuId)
  }

  /** `get_object_or_404(Menu, restaurant=restaurant)`. */
  function MenuOf(menus: seq<Restaurants.Menu>, restaurantId: nat): Found {
    Get(menus, (m: Restaurants.Menu) => m.restaurant == restaurantId)
  }

  /**
   * The browse: 404 when no restaurant has the id or no menu belongs to it,
   * a server error when several menus belong to it, otherwise the records
   * of its menu's items.
   */
  function MenuItemsFor(restaurants: seq<Restaurants.Restaurant>, menus: seq<Restaurants.Menu>, menuItems: seq<MenuItem>, restaurantId: nat)
    : (r: Result<seq<ItemRecord>, BrowseError>)
    requires DistinctOn(restaurants, Restaurants.RestaurantId)
    ensures (forall i :: 0 <= i < |restaurants| ==> restaurants[i].id != restaurantId) ==> r == Err(NotFound)
    ensures (exists i :: 0 <= i < |restaurants| && restaurants[i].id == restaurantId) ==>
              && (r == Err(NotFound) <==> forall j :: 0 <= j < |menus| ==> menus[j].restaurant != restaurantId)
              && (r == Err(MultipleObjects) <==>
                    exists j, k :: 0 <= j < k < |menus| && menus[j].restaurant == restaurantId && menus[k].restaurant == restaurantId)
    ensures r.Ok? ==> MenuOf(menus, restaurantId).One?
  {
    match Get(restaurants, (x: Restaurants.Restaurant) => x.id == restaurantId)
    case Missing => Err(NotFound)
    case Many => Err(MultipleObjects)
    case One(_) =>
      match MenuOf(menus, restaurantId)
      case Missing => Err(NotFound)
      case Many => Err(MultipleObjects)
      case One(m) => Ok(Records(ItemsOfMenu(menuItems, menus[m].id)))
  }

  /**
   * A successful browse lists exactly the items of the restaurant's menu:
   * every record is the projection of such an item, and every such item
   * is listed.
   */
  lemma BrowseSoundAndComplete(restaurants: seq<Restaurants.Restaurant>, menus: seq<Restaurants.Menu>, menuItems: seq<MenuItem>, restaurantId: nat)
    requires DistinctOn(restaurants, Restaurants.RestaurantId)
    requires MenuItemsFor(restaurants, menus, menuItems, restaurantId).Ok?
    ensures var listed := MenuItemsFor(restaurants, menus, menuItems, restaurantId).value;
            var menu := menus[MenuOf(menus, restaurantId).index];
            && menu.restaurant == restaurantId
            && (forall k :: 0 <= k < |listed| ==>
                  exists j :: 0 <= j < |menuItems| && menuItems[j].menu == menu.id && listed[k] == Record(menuItems[j]))
            && (forall j :: 0 <= j < |menuItems| && menuItems[j].menu == menu.id ==> Record(menuItems[j]) in listed)
  {
    var menu := menus[MenuOf(menus, restaurantId).index];
    var chosen := ItemsOfMenu(menuItems, menu.id);
    var listed := Records(chosen);
    assert MenuItemsFor(restaurants, menus, menuItems, restaurantId).value == listed;
    forall k | 0 <= k < |listed|
      ensures exists j :: 0 <= j < |menuItems| && menuItems[j].menu == menu.id && listed[k] == Record(menuItems[j])
    {
      var j :| 0 <= j < |menuItems| && menuItems[j] == chosen[k];
      assert listed[k] == Record(menuItems[j]);
    }
    forall j | 0 <= j < |menuItems| && menuItems[j].menu == menu.id
      ensures Record(menuItems[j]) in listed
    {
      var k :| 0 <= k < |chosen| && chosen[k] == menuItems[j];
      assert listed[k] == Record(menuItems[j]);
    }
  }

  /** The listing keeps query order: items earlier in the table come earlier in the response. */
  lemma {:induction false} RecordsKeepOrder(before: seq<MenuItem>, after: seq<MenuItem>, menuId: nat)
    ensures Records(ItemsOfMenu(before + after, menuId))
         == Records(ItemsOfMenu(before, menuId)) + Records(ItemsOfMenu(after, menuId))
  {
    FilterAppend(before, after, (it: MenuItem) => it.menu == menuId);
    RecordsAppend(ItemsOfMenu(before, menuId), ItemsOfMenu(after, menuId));
  }

  /** Projecting records distributes over concatenation. */
  lemma RecordsAppend(a: seq<MenuItem>, b: seq<MenuItem>)
    ensures Records(a + b) == Records(a) + Records(b)
  {
  }

  /** A restaurant with two menus cannot be browsed: the menu `get` raises instead of answering 404 or listing. */
  lemma TwoMenusFail(restaurants: seq<Restaurants.Restaurant>, menus: seq<Restaurants.Menu>, menuItems: seq<MenuItem>, restaurantId: nat, j: nat, k: nat)
    requires DistinctOn(restaurants, Restaurants.RestaurantId)
    requires exists i :: 0 <= i < |restaurants| && restaurants[i].id == restaurantId
    requires j < k < |menus| && menus[j].restaurant == restaurantId && menus[k].restaurant == restaurantId
    ensures MenuItemsFor(restaurants, menus, menuItems, restaurantId) == Err(MultipleObjects)
  {
  }
}
