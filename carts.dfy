/**
 * The cart views: the per-customer cart (fetched or created on demand),
 * clearing it, adding an item, removing an item and setting an item's
 * quantity. The cart and cart-item tables live in a `CartStore`.
 */
module Carts {
  import opened Tables

  datatype Cart = Cart(id: nat, customer: UserId)

  datatype CartItem = CartItem(id: nat, cart: nat, menu: nat, quantity: int)

  /** How a cart view fails. */
  datatype CartError =
    | NotFound         // 404 from get_object_or_404
    | InvalidPayload   // 400 raised by the item serializer
    | InvalidQuantity  // 400 "Invalid quantity"
    | MultipleObjects  // 500: get_or_create matched more than one row

  function CartId(c: Cart): nat { c.id }
  function CartCustomer(c: Cart): UserId { c.customer }
  function ItemId(it: CartItem): nat { it.id }

  /** `Cart.objects.get(customer=user)`, where a table with one cart per customer never has two. */
  function CartFor(carts: seq<Cart>, user: UserId): (r: Option<Cart>)
    ensures r.Some? ==> r.value in carts && r.value.customer == user
    ensures DistinctOn(carts, CartCustomer) ==>
              (r.None? <==> forall i :: 0 <= i < |carts| ==> carts[i].customer != user)
  {
    match Get(carts, (c: Cart) => c.customer == user)
    case One(i) => Some(carts[i])
    case _ => None
  }

  /** A cart appended for a customer who had none is the one `CartFor` finds. */
  lemma CartForAppended(carts: seq<Cart>, cart: Cart)
    requires DistinctOn(carts + [cart], CartCustomer)
    ensures CartFor(carts + [cart], cart.customer) == Some(cart)
  {
    var s := carts + [cart];
    assert CartCustomer(s[|carts|]) == cart.customer;
  }

  /** The items of one cart, in table order (`cart.items.all()`). */
  function ItemsOf(items: seq<CartItem>, cartId: nat): seq<CartItem> {
    Filter(items, (it: CartItem) => it.cart == cartId)
  }

  /** The cart table once one cart row is deleted. */
  function WithoutCartRow(carts: seq<Cart>, cartId: nat): seq<Cart> {
    Filter(carts, (c: Cart) => c.id != cartId)
  }

  /** The item table once every item of one cart is deleted. */
  function WithoutCart(items: seq<CartItem>, cartId: nat): seq<CartItem> {
    Filter(items, (it: CartItem) => it.cart != cartId)
  }

  /** `CartItem.objects.get(cart=…, menu=…, quantity=…)`, the lookup half of the add view's get_or_create. */
  function Matching(items: seq<CartItem>, cartId: nat, menu: nat, quantity: int): Found {
    Get(items, (it: CartItem) => it.cart == cartId && it.menu == menu && it.quantity == quantity)
  }

  /** `get_object_or_404(CartItem, id=item_id, cart=cart)`. */
  function OwnedItem(items: seq<CartItem>, cartId: nat, itemId: nat): Found {
    Get(items, (it: CartItem) => it.id == itemId && it.cart == cartId)
  }

  /** The patch view's guard `not quantity or int(quantity) < 0`, negated. */
  predicate AcceptedQuantity(quantity: Option<int>) {
    !(quantity.None? || quantity.value == 0 || quantity.value < 0)
  }

  /** The patch view accepts exactly the positive quantities: zero is falsy and is refused. */
  lemma AcceptedQuantityIsPositive(quantity: Option<int>)
    ensures AcceptedQuantity(quantity) <==> quantity.Some? && quantity.value > 0
  {
  }

  /** Clearing one cart empties it and leaves every other cart's items as they were. */
  lemma {:induction false} WithoutCartKeepsOthers(items: seq<CartItem>, cartId: nat, other: nat)
    ensures ItemsOf(WithoutCart(items, cartId), cartId) == []
    ensures other != cartId ==> ItemsOf(WithoutCart(items, cartId), other) == ItemsOf(items, other)
  {
    if items != [] {
      WithoutCartKeepsOthers(items[1..], cartId, other);
    }
  }

  class CartStore {
    var carts: seq<Cart>
    var items: seq<CartItem>
    var nextCartId: nat
    var nextItemId: nat

    /** Primary keys are unique and below the next id; each customer has at most one cart. */
    ghost predicate Valid()
      reads this
    {
      && DistinctOn(carts, CartId)
      && DistinctOn(carts, CartCustomer)
      && KeysBelow(carts, CartId, nextCartId)
      && DistinctOn(items, ItemId)
      && KeysBelow(items, ItemId, nextItemId)
    }

    constructor ()
      ensures Valid() && carts == [] && items == [] && nextCartId == 0 && nextItemId == 0
    {
      carts, items := [], [];
      nextCartId, nextItemId := 0, 0;
    }

    /**
     * `cart` is the customer's cart after a get-or-create: the one they had,
     * with the cart table untouched, or a fresh row appended for them.
     */
    twostate predicate GotOrCreated(user: UserId, cart: Cart)
      reads this
    {
      && CartFor(carts, user) == Some(cart)
      && (CartFor(old(carts), user).Some? ==>
            cart == CartFor(old(carts), user).value && carts == old(carts) && nextCartId == old(nextCartId))
      && (CartFor(old(carts), user).None? ==>
            cart == Cart(old(nextCartId), user) && carts == old(carts) + [cart] && nextCartId == old(nextCartId) + 1)
    }

    /** `CartView.get_object`: `Cart.objects.get_or_create(customer=user)`. */
    method GetObject(user: UserId) returns (cart: Cart)
      requires Valid()
      modifies this
      ensures Valid()
      ensures GotOrCreated(user, cart)
      ensures items == old(items) && nextItemId == old(nextItemId)
    {
      var found := CartFor(carts, user);
      if found.Some? {
        cart := found.value;
      } else {
        cart := Cart(nextCartId, user);
        carts := carts + [cart];
        nextCartId := nextCartId + 1;
        assert forall i :: 0 <= i < |carts| - 1 ==> carts[i] == old(carts)[i];
        CartForAppended(old(carts), cart);
      }
    }

    /** `CartView.delete`: every item of the customer's cart is deleted; the cart row stays. */
    method Clear(user: UserId)
      requires Valid()
      modifies this
      ensures Valid()
      ensures CartFor(carts, user).Some? && GotOrCreated(user, CartFor(carts, user).value)
      ensures items == WithoutCart(old(items), CartFor(carts, user).value.id)
      ensures nextItemId == old(nextItemId)
    {
      var cart := GetObject(user);
      FilterDistinct(items, (it: CartItem) => it.cart != cart.id, ItemId);
      FilterKeysBelow(items, (it: CartItem) => it.cart != cart.id, ItemId, nextItemId);
      items := WithoutCart(items, cart.id);
    }

    /**
     * `CartItemCreateView.post`. The cart is fetched or created before the
     * payload is validated. The quantity defaults to 1; the item is looked up
     * by (cart, menu, quantity): a match grows by the quantity, no match adds
     * a row with exactly that quantity, several matches fail.
     */
    method AddItem(user: UserId, payloadValid: bool, menu: nat, quantity: Option<int>)
      returns (r: Result<CartItem, CartError>)
      requires Valid()
      modifies this
      ensures Valid()
      ensures CartFor(carts, user).Some? && GotOrCreated(user, CartFor(carts, user).value)
      ensures !payloadValid ==> r == Err(InvalidPayload) && items == old(items) && nextItemId == old(nextItemId)
      ensures payloadValid ==>
        var cartId := CartFor(carts, user).value.id;
        var q := if quantity.Some? then quantity.value else 1;
        match Matching(old(items), cartId, menu, q)
        case Missing =>
          && r == Ok(CartItem(old(nextItemId), cartId, menu, q))
          && items == old(items) + [r.value] && nextItemId == old(nextItemId) + 1
        case One(i) =>
          && r == Ok(old(items)[i].(quantity := old(items)[i].quantity + q))
          && items == old(items)[i := r.value] && nextItemId == old(nextItemId)
        case Many =>
          r == Err(MultipleObjects) && items == old(items) && nextItemId == old(nextItemId)
    {
      var cart := GetObject(user);
      if !payloadValid {
        return Err(InvalidPayload);
      }
      var q := if quantity.Some? then quantity.value else 1;
      var found := Matching(items, cart.id, menu, q);
      match found
      case Missing =>
        var item := InsertItem(cart.id, menu, q);
        r := Ok(item);
      case One(i) =>
        var item := SaveQuantity(i, items[i].quantity + q);
        r := Ok(item);
      case Many =>
        r := Err(MultipleObjects);
    }

    /** A new cart-item row, saved with the next id. */
    method InsertItem(cartId: nat, menu: nat, quantity: int) returns (item: CartItem)
      requires Valid()
      modifies this
      ensures Valid()
      ensures item == CartItem(old(nextItemId), cartId, menu, quantity)
      ensures items == old(items) + [item] && nextItemId == old(nextItemId) + 1
      ensures carts == old(carts) && nextCartId == old(nextCartId)
    {
      item := CartItem(nextItemId, cartId, menu, quantity);
      items := items + [item];
      nextItemId := nextItemId + 1;
    }

    /** `cart_item.quantity = …; cart_item.save()` on the row at `i`. */
    method SaveQuantity(i: nat, quantity: int) returns (item: CartItem)
      requires Valid() && i < |items|
      modifies this
      ensures Valid()
      ensures item == old(items)[i].(quantity := quantity) && items == old(items)[i := item]
      ensures carts == old(carts) && nextCartId == old(nextCartId) && nextItemId == old(nextItemId)
    {
      item := items[i].(quantity := quantity);
      items := items[i := item];
      assert forall k :: 0 <= k < |items| ==> items[k].id == old(items)[k].id;
    }

    /** `CartItemDeleteView.delete`: the item must be in the requester's cart; exactly that row goes. */
    method RemoveItem(user: UserId, itemId: nat) returns (r: Result<CartItem, CartError>)
      requires Valid()
      modifies this
      ensures Valid()
      ensures carts == old(carts) && nextCartId == old(nextCartId) && nextItemId == old(nextItemId)
      ensures match CartFor(old(carts), user)
        case None => r == Err(NotFound) && items == old(items)
        case Some(cart) =>
          match OwnedItem(old(items), cart.id, itemId)
          case Missing => r == Err(NotFound) && items == old(items)
          case One(i) => r == Ok(old(items)[i]) && items == old(items)[..i] + old(items)[i + 1..]
          case Many => false
    {
      var cart := CartFor(carts, user);
      if cart.None? {
        return Err(NotFound);
      }
      var found := OwnedItem(items, cart.value.id, itemId);
      if found.One? {
        var i := found.index;
        r := Ok(items[i]);
        items := items[..i] + items[i + 1..];
        assert forall k :: 0 <= k < |items| ==> items[k] == old(items)[if k < i then k else k + 1];
      } else {
        r := Err(NotFound);
      }
    }

    /**
     * `CartItemDeleteView.patch`: the ownership lookup comes first (404),
     * then the quantity check (400); an accepted quantity replaces the
     * item's quantity and nothing else changes.
     */
    method SetQuantity(user: UserId, itemId: nat, quantity: Option<int>) returns (r: Result<CartItem, CartError>)
      requires Valid()
      modifies this
      ensures Valid()
      ensures carts == old(carts) && nextCartId == old(nextCartId) && nextItemId == old(nextItemId)
      ensures match CartFor(old(carts), user)
        case None => r == Err(NotFound) && items == old(items)
        case Some(cart) =>
          match OwnedItem(old(items), cart.id, itemId)
          case Missing => r == Err(NotFound) && items == old(items)
          case One(i) =>
            if AcceptedQuantity(quantity) then
              r == Ok(old(items)[i].(quantity := quantity.value)) && items == old(items)[i := r.value]
            else
              r == Err(InvalidQuantity) && items == old(items)
          case Many => false
    {
      var cart := CartFor(carts, user);
      if cart.None? {
        return Err(NotFound);
      }
      var found := OwnedItem(items, cart.value.id, itemId);
      if !found.One? {
        return Err(NotFound);
      }
      if quantity.None? || quantity.value == 0 || quantity.value < 0 {
        return Err(InvalidQuantity);
      }
      var item := SaveQuantity(found.index, quantity.value);
      r := Ok(item);
    }

    /** `cart.delete()`: the cart row goes and, by cascade, its items. */
    method DeleteCart(cart: Cart)
      requires Valid()
      modifies this
      ensures Valid()
      ensures carts == WithoutCartRow(old(carts), cart.id)
      ensures items == WithoutCart(old(items), cart.id)
      ensures nextCartId == old(nextCartId) && nextItemId == old(nextItemId)
    {
      FilterDistinct(carts, (c: Cart) => c.id != cart.id, CartId);
      FilterDistinct(carts, (c: Cart) => c.id != cart.id, CartCustomer);
      FilterKeysBelow(carts, (c: Cart) => c.id != cart.id, CartId, nextCartId);
      FilterDistinct(items, (it: CartItem) => it.cart != cart.id, ItemId);
      FilterKeysBelow(items, (it: CartItem) => it.cart != cart.id, ItemId, nextItemId);
      carts := WithoutCartRow(carts, cart.id);
      items := WithoutCart(items, cart.id);
    }
  }

  /**
   * Get-or-create twice: the second call finds the cart the first returned,
   * creates nothing, and the customer ends with exactly one cart.
   */
  method GetObjectTwice(store: CartStore, user: UserId) returns (first: Cart, second: Cart)
    requires store.Valid()
    modifies store
    ensures store.Valid()
    ensures second == first && first.customer == user
    ensures CartFor(store.carts, user) == Some(first)
    ensures forall i :: 0 <= i < |store.carts| && store.carts[i].customer == user ==> store.carts[i] == first
    ensures |store.carts| <= |old(store.carts)| + 1
  {
    first := store.GetObject(user);
    second := store.GetObject(user);
  }

  /** The lookups the scenario below performs, on the tables it builds. */
  lemma ScenarioLookups(menu: nat)
    ensures Matching([CartItem(0, 0, menu, 1)], 0, menu, 1) == One(0)
    ensures Matching([CartItem(0, 0, menu, 2)], 0, menu, 1) == Missing
    ensures Matching([CartItem(0, 0, menu, 2), CartItem(1, 0, menu, 1)], 0, menu, 1) == One(1)
    ensures Matching([CartItem(0, 0, menu, 2), CartItem(1, 0, menu, 2)], 0, menu, 2) == Many
  {
    var two := [CartItem(0, 0, menu, 2), CartItem(1, 0, menu, 1)];
    assert two[0].quantity != 1 && two[1].quantity == 1;
    var dup := [CartItem(0, 0, menu, 2), CartItem(1, 0, menu, 2)];
    assert dup[1..] == [CartItem(1, 0, menu, 2)];
    assert Matching(dup[1..], 0, menu, 2) == One(0);
  }

  /**
   * Adds keyed on (cart, menu, quantity) can leave two rows for one menu
   * with equal quantities: four adds of quantity 1 give rows of quantity 2
   * and 2, and an add of quantity 2 then matches both and fails.
   */
  method DuplicateRowsScenario(user: UserId, menu: nat) returns (r: Result<CartItem, CartError>)
    ensures r == Err(MultipleObjects)
  {
    ScenarioLookups(menu);
    var store := new CartStore();
    var added := store.AddItem(user, true, menu, None);
    assert store.carts == [Cart(0, user)];
    var row0, row1 := CartItem(0, 0, menu, 1), CartItem(1, 0, menu, 1);
    assert store.items == [row0];
    added := store.AddItem(user, true, menu, None);
    assert store.items == [row0.(quantity := 2)];
    added := store.AddItem(user, true, menu, None);
    assert store.items == [row0.(quantity := 2), row1];
    added := store.AddItem(user, true, menu, None);
    assert store.items == [row0.(quantity := 2), row1.(quantity := 2)];
    r := store.AddItem(user, true, menu, Some(2));
  }
}
