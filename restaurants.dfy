/**
 * The catalog views: listing and creating restaurants, updating and
 * deleting one's own restaurant, creating menus under it, and updating and
 * deleting a menu through its restaurant's owner. Every lookup that
 * guards a change matches on the primary key and the ownership chain at
 * once, so "absent" and "not yours" are the same 404.
 */
module Restaurants {
  import opened Tables

  datatype RestaurantInfo = RestaurantInfo(name: string, description: string, address: string, phoneNumber: string)

  /** A partial update: `None` leaves the field as it is. */
  datatype RestaurantPatch = RestaurantPatch(
    name: Option<string>, description: Option<string>, address: Option<string>, phoneNumber: Option<string>)

  datatype Restaurant = Restaurant(id: nat, owner: UserId, info: RestaurantInfo)

  datatype MenuInfo = MenuInfo(name: string, description: string, price: int, isAvailable: bool)

  /** A partial update: `None` leaves the field as it is. */
  datatype MenuPatch = MenuPatch(
    name: Option<string>, description: Option<string>, price: Option<int>, isAvailable: Option<bool>)

  datatype Menu = Menu(id: nat, restaurant: nat, info: MenuInfo)

  /** How a catalog view fails. */
  datatype Failure =
    | Forbidden   // 403: the requester's role is not "owner"
    | BadRequest  // 400: a second restaurant, or a payload the serializer refuses
    | NotFound    // 404: absent, or not owned by the requester
    | ServerError // 500: the listing evaluates the class-level queryset, which raises

  function RestaurantId(r: Restaurant): nat { r.id }
  function RestaurantOwner(r: Restaurant): UserId { r.owner }
  function MenuId(m: Menu): nat { m.id }

  function Pick<T>(update: Option<T>, current: T): T {
    if update.Some? then update.value else current
  }

  /** A partial serializer save: exactly the supplied fields change. */
  function PatchRestaurant(info: RestaurantInfo, patch: RestaurantPatch): RestaurantInfo {
    RestaurantInfo(Pick(patch.name, info.name), Pick(patch.description, info.description),
                   Pick(patch.address, info.address), Pick(patch.phoneNumber, info.phoneNumber))
  }

  /** A partial serializer save: exactly the supplied fields change. */
  function PatchMenu(info: MenuInfo, patch: MenuPatch): MenuInfo {
    MenuInfo(Pick(patch.name, info.name), Pick(patch.description, info.description),
             Pick(patch.price, info.price), Pick(patch.isAvailable, info.isAvailable))
  }

  /** `Restaurants.objects.filter(owner=user).exists()`. */
  predicate OwnsRestaurant(restaurants: seq<Restaurant>, user: UserId) {
    exists i :: 0 <= i < |restaurants| && restaurants[i].owner == user
  }

  /** The join `restaurant__owner=user`: the restaurant `restaurantId` exists and `user` owns it. */
  predicate OwnedBy(restaurants: seq<Restaurant>, restaurantId: nat, user: UserId) {
    exists i :: 0 <= i < |restaurants| && restaurants[i].id == restaurantId && restaurants[i].owner == user
  }

  /** `get_object_or_404(Restaurants, pk=pk, owner=user)`. */
  function OwnedRestaurant(restaurants: seq<Restaurant>, pk: nat, user: UserId): Found {
    Get(restaurants, (r: Restaurant) => r.id == pk && r.owner == user)
  }

  /** `get_object_or_404(Menu, pk=pk, restaurant__owner=user)`. */
  function OwnedMenu(menus: seq<Menu>, restaurants: seq<Restaurant>, pk: nat, user: UserId): Found {
    Get(menus, (m: Menu) => m.id == pk && OwnedBy(restaurants, m.restaurant, user))
  }

  /** The restaurant lookup succeeds exactly when the row with that key belongs to the requester. */
  lemma OwnedRestaurantExactly(restaurants: seq<Restaurant>, pk: nat, user: UserId)
    requires DistinctOn(restaurants, RestaurantId)
    ensures !OwnedRestaurant(restaurants, pk, user).Many?
    ensures OwnedRestaurant(restaurants, pk, user).One? <==> OwnedBy(restaurants, pk, user)
  {
  }

  /** The menu lookup succeeds exactly when the menu with that key sits under a restaurant the requester owns. */
  lemma OwnedMenuExactly(menus: seq<Menu>, restaurants: seq<Restaurant>, pk: nat, user: UserId)
    requires DistinctOn(menus, MenuId)
    ensures !OwnedMenu(menus, restaurants, pk, user).Many?
    ensures OwnedMenu(menus, restaurants, pk, user).One? <==>
              exists j :: 0 <= j < |menus| && menus[j].id == pk && OwnedBy(restaurants, menus[j].restaurant, user)
  {
  }

  /**
   * `RestaurantListCreateView.get` as written. It reads the class-level
   * `queryset` of all restaurants, whoever asks. Django REST framework's
   * `APIView.as_view` makes evaluating a class-level queryset raise. The
   * `exists()` check only queries the database, so an empty table lists
   * nothing. Serializing a non-empty table evaluates the queryset, so any
   * other table is a server error.
   */
  function ListAsWritten(restaurants: seq<Restaurant>): (r: Result<seq<Restaurant>, Failure>)
    ensures r == Ok([]) <==> restaurants == []
    ensures r == Err(ServerError) <==> restaurants != []
  {
    if restaurants == [] then Ok([]) else Err(ServerError)
  }

  /**
   * The listing the view documents (`get_queryset`): the requester's own
   * restaurants, in table order.
   */
  function OwnedRestaurants(restaurants: seq<Restaurant>, user: UserId): (r: seq<Restaurant>)
    ensures forall i :: 0 <= i < |r| ==> r[i] in restaurants && r[i].owner == user
    ensures forall j :: 0 <= j < |restaurants| && restaurants[j].owner == user ==> restaurants[j] in r
  {
    Filter(restaurants, (x: Restaurant) => x.owner == user)
  }

  /** With one restaurant per owner, the documented listing has at most one entry. */
  lemma OwnedRestaurantsAtMostOne(restaurants: seq<Restaurant>, user: UserId)
    requires DistinctOn(restaurants, RestaurantOwner)
    ensures |OwnedRestaurants(restaurants, user)| <= 1
  {
    var owned := OwnedRestaurants(restaurants, user);
    FilterDistinct(restaurants, (x: Restaurant) => x.owner == user, RestaurantOwner);
    assert |owned| > 1 ==> RestaurantOwner(owned[0]) == user == RestaurantOwner(owned[1]);
  }

  /**
   * Whenever the requester owns a restaurant, the view as written fails
   * where the documented listing would show it.
   */
  lemma ListHidesOwnedRestaurant(restaurants: seq<Restaurant>, user: UserId)
    requires OwnsRestaurant(restaurants, user)
    ensures ListAsWritten(restaurants) == Err(ServerError)
    ensures OwnedRestaurants(restaurants, user) != []
  {
    var i :| 0 <= i < |restaurants| && restaurants[i].owner == user;
    assert restaurants[i] in OwnedRestaurants(restaurants, user);
  }

  /** One restaurant, listed by its owner: a server error instead of that restaurant. */
  lemma ListOneRestaurant()
    ensures var table := [Restaurant(0, 7, RestaurantInfo("Bistro", "", "", ""))];
            && ListAsWritten(table) == Err(ServerError)
            && OwnedRestaurants(table, 7) == table
  {
    var table := [Restaurant(0, 7, RestaurantInfo("Bistro", "", "", ""))];
    assert table[0].owner == 7;
  }

  class Catalog {
    var restaurants: seq<Restaurant>
    var menus: seq<Menu>
    var nextRestaurantId: nat
    var nextMenuId: nat

    /** Primary keys are unique and below the next id; no owner has two restaurants. */
    ghost predicate Valid()
      reads this
    {
      && DistinctOn(restaurants, RestaurantId)
      && KeysBelow(restaurants, RestaurantId, nextRestaurantId)
      && DistinctOn(restaurants, RestaurantOwner)
      && DistinctOn(menus, MenuId)
      && KeysBelow(menus, MenuId, nextMenuId)
    }

    constructor ()
      ensures Valid() && restaurants == [] && menus == [] && nextRestaurantId == 0 && nextMenuId == 0
    {
      restaurants, menus := [], [];
      nextRestaurantId, nextMenuId := 0, 0;
    }

    /**
     * `RestaurantListCreateView.post`: only the "owner" role may create (403),
     * an owner who already has a restaurant may not create another (400),
     * then the payload is validated (400) and the restaurant is saved with
     * the requester as owner.
     */
    method Create(user: UserId, role: string, payloadValid: bool, info: RestaurantInfo)
      returns (r: Result<Restaurant, Failure>)
      requires Valid()
      modifies this
      ensures Valid()
      ensures role != "owner" ==> r == Err(Forbidden) && unchanged(this)
      ensures role == "owner" && OwnsRestaurant(old(restaurants), user) ==> r == Err(BadRequest) && unchanged(this)
      ensures role == "owner" && !OwnsRestaurant(old(restaurants), user) && !payloadValid ==>
                r == Err(BadRequest) && unchanged(this)
      ensures role == "owner" && !OwnsRestaurant(old(restaurants), user) && payloadValid ==>
                && r == Ok(Restaurant(old(nextRestaurantId), user, info))
                && restaurants == old(restaurants) + [r.value]
                && nextRestaurantId == old(nextRestaurantId) + 1
                && menus == old(menus) && nextMenuId == old(nextMenuId)
    {
      if role != "owner" {
        return Err(Forbidden);
      }
      if exists i :: 0 <= i < |restaurants| && restaurants[i].owner == user {
        return Err(BadRequest);
      }
      if !payloadValid {
        return Err(BadRequest);
      }
      var restaurant := Restaurant(nextRestaurantId, user, info);
      restaurants := restaurants + [restaurant];
      nextRestaurantId := nextRestaurantId + 1;
      r := Ok(restaurant);
    }

    /** `RestaurantDetailView.patch`: the owned-restaurant lookup (404), then validation (400), then a partial save. */
    method Patch(user: UserId, pk: nat, payloadValid: bool, patch: RestaurantPatch)
      returns (r: Result<Restaurant, Failure>)
      requires Valid()
      modifies this
      ensures Valid()
      ensures menus == old(menus) && nextRestaurantId == old(nextRestaurantId) && nextMenuId == old(nextMenuId)
      ensures match OwnedRestaurant(old(restaurants), pk, user)
        case Missing => r == Err(NotFound) && restaurants == old(restaurants)
        case One(i) =>
          if payloadValid then
            && r == Ok(old(restaurants)[i].(info := PatchRestaurant(old(restaurants)[i].info, patch)))
            && restaurants == old(restaurants)[i := r.value]
          else
            r == Err(BadRequest) && restaurants == old(restaurants)
        case Many => false
    {
      OwnedRestaurantExactly(restaurants, pk, user);
      var found := OwnedRestaurant(restaurants, pk, user);
      if !found.One? {
        return Err(NotFound);
      }
      if !payloadValid {
        return Err(BadRequest);
      }
      var i := found.index;
      var updated := restaurants[i].(info := PatchRestaurant(restaurants[i].info, patch));
      restaurants := restaurants[i := updated];
      r := Ok(updated);
      assert forall k :: 0 <= k < |restaurants| ==> restaurants[k].id == old(restaurants)[k].id;
      assert forall k :: 0 <= k < |restaurants| ==> restaurants[k].owner == old(restaurants)[k].owner;
    }

    /** `RestaurantDetailView.delete`: the owned-restaurant lookup (404), then exactly that row goes. */
    method Delete(user: UserId, pk: nat) returns (r: Result<Restaurant, Failure>)
      requires Valid()
      modifies this
      ensures Valid()
      ensures menus == old(menus) && nextRestaurantId == old(nextRestaurantId) && nextMenuId == old(nextMenuId)
      ensures match OwnedRestaurant(old(restaurants), pk, user)
        case Missing => r == Err(NotFound) && restaurants == old(restaurants)
        case One(i) => r == Ok(old(restaurants)[i]) && restaurants == old(restaurants)[..i] + old(restaurants)[i + 1..]
        case Many => false
    {
      OwnedRestaurantExactly(restaurants, pk, user);
      var found := OwnedRestaurant(restaurants, pk, user);
      if !found.One? {
        return Err(NotFound);
      }
      var i := found.index;
      r := Ok(restaurants[i]);
      restaurants := restaurants[..i] + restaurants[i + 1..];
      assert forall k :: 0 <= k < |restaurants| ==> restaurants[k] == old(restaurants)[if k < i then k else k + 1];
    }

    /** `MenuCreateView.post`: the owned-restaurant lookup (404), then validation (400), then a menu linked to it. */
    method CreateMenu(user: UserId, restaurantPk: nat, payloadValid: bool, info: MenuInfo)
      returns (r: Result<Menu, Failure>)
      requires Valid()
      modifies this
      ensures Valid()
      ensures restaurants == old(restaurants) && nextRestaurantId == old(nextRestaurantId)
      ensures match OwnedRestaurant(old(restaurants), restaurantPk, user)
        case Missing => r == Err(NotFound) && menus == old(menus) && nextMenuId == old(nextMenuId)
        case One(i) =>
          if payloadValid then
            && r == Ok(Menu(old(nextMenuId), restaurantPk, info))
            && menus == old(menus) + [r.value] && nextMenuId == old(nextMenuId) + 1
          else
            r == Err(BadRequest) && menus == old(menus) && nextMenuId == old(nextMenuId)
        case Many => false
    {
      OwnedRestaurantExactly(restaurants, restaurantPk, user);
      var found := OwnedRestaurant(restaurants, restaurantPk, user);
      if !found.One? {
        return Err(NotFound);
      }
      if !payloadValid {
        return Err(BadRequest);
      }
      var menu := Menu(nextMenuId, restaurantPk, info);
      menus := menus + [menu];
      nextMenuId := nextMenuId + 1;
      r := Ok(menu);
    }

    /** `MenuDetailView.patch`: the owned-menu lookup (404), then validation (400), then a partial save. */
    method PatchMenuItem(user: UserId, pk: nat, payloadValid: bool, patch: MenuPatch)
      returns (r: Result<Menu, Failure>)
      requires Valid()
      modifies this
      ensures Valid()
      ensures restaurants == old(restaurants) && nextRestaurantId == old(nextRestaurantId) && nextMenuId == old(nextMenuId)
      ensures match OwnedMenu(old(menus), restaurants, pk, user)
        case Missing => r == Err(NotFound) && menus == old(menus)
        case One(i) =>
          if payloadValid then
            && r == Ok(old(menus)[i].(info := PatchMenu(old(menus)[i].info, patch)))
            && menus == old(menus)[i := r.value]
          else
            r == Err(BadRequest) && menus == old(menus)
        case Many => false
    {
      OwnedMenuExactly(menus, restaurants, pk, user);
      var found := OwnedMenu(menus, restaurants, pk, user);
      if !found.One? {
        return Err(NotFound);
      }
      if !payloadValid {
        return Err(BadRequest);
      }
      var i := found.index;
      var updated := menus[i].(info := PatchMenu(menus[i].info, patch));
      menus := menus[i := updated];
      r := Ok(updated);
      assert forall k :: 0 <= k < |menus| ==> menus[k].id == old(menus)[k].id;
    }

    /** `MenuDetailView.delete`: the owned-menu lookup (404), then exactly that menu goes. */
    method DeleteMenu(user: UserId, pk: nat) returns (r: Result<Menu, Failure>)
      requires Valid()
      modifies this
      ensures Valid()
      ensures restaurants == old(restaurants) && nextRestaurantId == old(nextRestaurantId) && nextMenuId == old(nextMenuId)
      ensures match OwnedMenu(old(menus), restaurants, pk, user)
        case Missing => r == Err(NotFound) && menus == old(menus)
        case One(i) => r == Ok(old(menus)[i]) && menus == old(menus)[..i] + old(menus)[i + 1..]
        case Many => false
    {
      OwnedMenuExactly(menus, restaurants, pk, user);
      var found := OwnedMenu(menus, restaurants, pk, user);
      if !found.One? {
        return Err(NotFound);
      }
      var i := found.index;
      r := Ok(menus[i]);
      menus := menus[..i] + menus[i + 1..];
      assert forall k :: 0 <= k < |menus| ==> menus[k] == old(menus)[if k < i then k else k + 1];
    }
  }
}
