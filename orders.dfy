/**
 * Order placement: the customer's cart becomes a `PENDING` order with one
 * order item per cart item, and the cart is deleted. The cart's total and
 * each cart item's price come from model methods (`calculate_total_price`,
 * `cart_item_price`) whose bodies are not part of this model, so they are
 * parameters here; amounts are integer cents.
 */
module Orders {
  import opened Tables
  import opened Carts

  datatype Order = Order(id: nat, customer: UserId, status: string, totalAmount: int)

  datatype OrderItem = OrderItem(id: nat, order: nat, menu: nat, quantity: int, price: int)

  /** Placement is refused (400) when the requester has no cart. */
  datatype OrderError = EmptyCart

  function OrderId(o: Order): nat { o.id }
  function OrderItemId(o: OrderItem): nat { o.id }

  /** `created` is the bulk-created snapshot of `lines`: one row per line, same order, ids from `firstId` up. */
  ghost predicate SnapshotOf(created: seq<OrderItem>, lines: seq<CartItem>, orderId: nat, firstId: nat, itemPrice: CartItem -> int) {
    && |created| == |lines|
    && forall k :: 0 <= k < |lines| ==>
         created[k] == OrderItem(firstId + k, orderId, lines[k].menu, lines[k].quantity, itemPrice(lines[k]))
  }

  /** Sum of price times quantity over order items. */
  function OrderLinesTotal(items: seq<OrderItem>): int {
    if items == [] then 0 else items[0].price * items[0].quantity + OrderLinesTotal(items[1..])
  }

  /** Sum of price times quantity over cart items, for a given pricing. */
  function CartLinesTotal(lines: seq<CartItem>, itemPrice: CartItem -> int): int {
    if lines == [] then 0 else itemPrice(lines[0]) * lines[0].quantity + CartLinesTotal(lines[1..], itemPrice)
  }

  /** The snapshot freezes prices: its lines add up to what the cart's lines added up to when it was taken. */
  lemma {:induction false} SnapshotKeepsTotal(created: seq<OrderItem>, lines: seq<CartItem>, orderId: nat, firstId: nat, itemPrice: CartItem -> int)
    requires SnapshotOf(created, lines, orderId, firstId, itemPrice)
    ensures OrderLinesTotal(created) == CartLinesTotal(lines, itemPrice)
  {
    if lines != [] {
      assert SnapshotOf(created[1..], lines[1..], orderId, firstId + 1, itemPrice) by {
        forall k | 0 <= k < |lines| - 1
          ensures created[1..][k] == OrderItem(firstId + 1 + k, orderId, lines[1..][k].menu, lines[1..][k].quantity, itemPrice(lines[1..][k]))
        {
          assert created[k + 1] == OrderItem(firstId + (k + 1), orderId, lines[k + 1].menu, lines[k + 1].quantity, itemPrice(lines[k + 1]));
        }
      }
      SnapshotKeepsTotal(created[1..], lines[1..], orderId, firstId + 1, itemPrice);
    }
  }

  /** The loop of `OrderCreateView.post` that builds `order_item_to_create` from the cart's items. */
  method Snapshot(lines: seq<CartItem>, orderId: nat, firstId: nat, itemPrice: CartItem -> int)
    returns (created: seq<OrderItem>)
    ensures |created| == |lines|
    ensures forall k :: 0 <= k < |lines| ==>
              created[k] == OrderItem(firstId + k, orderId, lines[k].menu, lines[k].quantity, itemPrice(lines[k]))
  {
    created := [];
    var n := 0;
    while n < |lines|
      invariant n <= |lines| && |created| == n
      invariant forall k :: 0 <= k < n ==>
                  created[k] == OrderItem(firstId + k, orderId, lines[k].menu, lines[k].quantity, itemPrice(lines[k]))
    {
      var item := lines[n];
      created := created + [OrderItem(firstId + n, orderId, item.menu, item.quantity, itemPrice(item))];
      n := n + 1;
    }
  }

  class OrderStore {
    var orders: seq<Order>
    var orderItems: seq<OrderItem>
    var nextOrderId: nat
    var nextOrderItemId: nat

    /** Primary keys are unique and below the next id. */
    ghost predicate Valid()
      reads this
    {
      && DistinctOn(orders, OrderId)
      && KeysBelow(orders, OrderId, nextOrderId)
      && DistinctOn(orderItems, OrderItemId)
      && KeysBelow(orderItems, OrderItemId, nextOrderItemId)
    }

    constructor ()
      ensures Valid() && orders == [] && orderItems == [] && nextOrderId == 0 && nextOrderItemId == 0
    {
      orders, orderItems := [], [];
      nextOrderId, nextOrderItemId := 0, 0;
    }

    /** `Order.objects.create`: one row appended. */
    method CreateOrder(customer: UserId, status: string, totalAmount: int) returns (order: Order)
      requires Valid()
      modifies this
      ensures Valid()
      ensures order == Order(old(nextOrderId), customer, status, totalAmount)
      ensures orders == old(orders) + [order] && nextOrderId == old(nextOrderId) + 1
      ensures orderItems == old(orderItems) && nextOrderItemId == old(nextOrderItemId)
    {
      order := Order(nextOrderId, customer, status, totalAmount);
      orders := orders + [order];
      nextOrderId := nextOrderId + 1;
    }

    /** `OrderItem.objects.bulk_create`: the rows are appended in the order given. */
    method BulkCreate(created: seq<OrderItem>)
      requires Valid()
      requires forall k :: 0 <= k < |created| ==> created[k].id == nextOrderItemId + k
      modifies this
      ensures Valid()
      ensures orderItems == old(orderItems) + created
      ensures nextOrderItemId == old(nextOrderItemId) + |created|
      ensures orders == old(orders) && nextOrderId == old(nextOrderId)
    {
      orderItems := orderItems + created;
      nextOrderItemId := nextOrderItemId + |created|;
    }
  }

  /**
   * `OrderCreateView.post`. Without a cart the request is refused and
   * nothing changes. Otherwise a `PENDING` order for the requester with the
   * cart's total is appended, then one order item per cart item in the
   * cart's item order, and the cart (with its items) is deleted. An existing
   * cart with no items passes the guard and yields an order with no items.
   */
  method PlaceOrder(book: OrderStore, store: CartStore, user: UserId,
                    cartTotal: seq<CartItem> -> int, itemPrice: CartItem -> int)
    returns (r: Result<Order, OrderError>)
    requires book.Valid() && store.Valid()
    modifies book, store
    ensures book.Valid() && store.Valid()
    ensures CartFor(old(store.carts), user).None? ==>
              r == Err(EmptyCart) && unchanged(book) && unchanged(store)
    ensures CartFor(old(store.carts), user).Some? ==>
              var cart := CartFor(old(store.carts), user).value;
              var lines := ItemsOf(old(store.items), cart.id);
              var before := |old(book.orderItems)|;
              && r == Ok(Order(old(book.nextOrderId), user, "PENDING", cartTotal(lines)))
              && book.orders == old(book.orders) + [r.value]
              && |book.orderItems| == before + |lines|
              && book.orderItems[..before] == old(book.orderItems)
              && SnapshotOf(book.orderItems[before..], lines, r.value.id, old(book.nextOrderItemId), itemPrice)
              && OrderLinesTotal(book.orderItems[before..]) == CartLinesTotal(lines, itemPrice)
              && CartFor(store.carts, user).None?
              && store.carts == WithoutCartRow(old(store.carts), cart.id)
              && store.items == WithoutCart(old(store.items), cart.id)
  {
    var found := CartFor(store.carts, user);
    if found.None? {
      return Err(EmptyCart);
    }
    var cart := found.value;
    var lines := ItemsOf(store.items, cart.id);
    var order := book.CreateOrder(user, "PENDING", cartTotal(lines));
    var created := Snapshot(lines, order.id, book.nextOrderItemId, itemPrice);
    SnapshotKeepsTotal(created, lines, order.id, book.nextOrderItemId, itemPrice);
    ghost var before := book.orderItems;
    book.BulkCreate(created);
    assert book.orderItems[..|before|] == before && book.orderItems[|before|..] == created;
    store.DeleteCart(cart);
    r := Ok(order);
  }

  /** A cart can be turned into an order only once: a second placement finds no cart. */
  method PlaceOrderTwice(book: OrderStore, store: CartStore, user: UserId,
                         cartTotal: seq<CartItem> -> int, itemPrice: CartItem -> int)
    returns (first: Result<Order, OrderError>, second: Result<Order, OrderError>)
    requires book.Valid() && store.Valid()
    modifies book, store
    ensures second == Err(EmptyCart)
    ensures first.Ok? ==> book.orders == old(book.orders) + [first.value]
  {
    first := PlaceOrder(book, store, user, cartTotal, itemPrice);
    second := PlaceOrder(book, store, user, cartTotal, itemPrice);
  }
}
