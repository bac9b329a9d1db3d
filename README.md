# Restaurant ordering backend: a Dafny model of its views

This project models the request handlers of a small restaurant-ordering web
backend. Customers keep one cart of menu items. Placing an order turns the
cart into a `PENDING` order with frozen line prices and deletes the cart.
Owners manage one restaurant and its menus. Anyone can browse a restaurant's
menu items. A user profile reports an age in whole years.

The object-relational mapper is replaced by explicit in-memory tables. Each
table is a sequence of rows in insertion order, with a counter for the next
primary key; keys are never reused. The views' queries
(`cart.items.all()`, `MenuItem.objects.filter`, the restaurant queryset) carry
no `order_by`, so the database's row order is unspecified. The model fixes it
as insertion order. "Cart-item order" in `Orders.Snapshot` and table order in
`MenuBrowse.RecordsKeepOrder` mean this order. The tables live in three classes whose
methods are the views:

- `Carts.CartStore` holds the cart and cart-item tables (`cart/views.py`).
- `Orders.OrderStore` holds the order and order-item tables. `Orders.PlaceOrder` works on it and on a `CartStore` (`orders/views.py`).
- `Restaurants.Catalog` holds the restaurant and menu tables (`restaurants/views.py`).

Each class has a `Valid()` invariant that every method keeps. It says that
primary keys are unique and below the next id, that each customer has at most
one cart, and that each owner has at most one restaurant.

The public menu browse (`customer/views.py`) and the age computation
(`users/models.py`'s `UserProfile.age`) only compute a value. They are
functions: `MenuBrowse.MenuItemsFor` and `Users.Age`.

Three ORM operations are modelled once, in `Tables`:

- `Get` is `QuerySet.get`. It finds one row, none (`DoesNotExist`, a 404 in `get_object_or_404`), or several (`MultipleObjectsReturned`, a server error).
- `Filter` is `QuerySet.filter`.
- `DistinctOn`/`KeysBelow` state primary-key and unique-column discipline.

A view's outcome is a `Result`. The error values stand for the HTTP outcomes:
404 not found, 403 forbidden, 400 bad request, and 500 for a `get` that
matched several rows.

Inputs the code takes from outside are parameters:

- The requesting user's id and role.
- Today's date.
- Whether the serializer accepts the payload (`payloadValid`).
- The cart's computed total (`cartTotal`) and each cart item's price (`itemPrice`). Their model methods are not part of this model.

Amounts are integer cents.

## Behaviour that follows the code rather than its documentation

- **Adding an item** looks the item up by (cart, menu, **quantity**) (`cart/views.py:131-133`), not by (cart, menu) as the docstring says.
  - A matching row grows by the quantity, so its quantity doubles.
  - Otherwise a new row is added, even when the menu is already in the cart with a different quantity.
  - Two rows for one menu can therefore reach equal quantities. The next add with that quantity then matches both, and `get_or_create` raises. `Carts.DuplicateRowsScenario` reaches this from an empty store in five adds.
- **The add view fetches or creates the cart before it validates the payload.** A rejected payload still leaves the requester with a cart.
- **Setting a quantity** with an integer payload rejects a missing value, zero and negative values (`not quantity or int(quantity) < 0`). A zero integer is therefore refused, not accepted. Other JSON values are not modelled (see "Left out").
- **Order placement checks only that a cart exists.** A cart with no items yields an order with no items. The code has no transaction around placement.
- **Listing restaurants** reads the class-level `queryset` of all restaurants (`restaurants/views.py:26,42`), not the owner-filtered `get_queryset`. Django REST framework's `APIView.as_view` (the route at `restaurants/urls.py:11`) makes evaluating a class-level queryset raise. The `exists()` check still answers, so an empty table lists nothing. Any non-empty table fails with a server error when the serializer reads it (`Restaurants.ListAsWritten`; see "Findings").
- **The menu browse** looks up *the* menu of the restaurant with `get`. A restaurant with two menus, which `MenuCreateView` allows, makes the browse fail with a server error instead of listing anything (`MenuBrowse.TwoMenusFail`).

Where the code's wiring disagrees with itself, the model takes the evident intent:

- The cart's owner is one field, `customer`; the order view looks carts up by `user=`.
- A cart item's menu is one field, `menu`. The add view writes `menu` and the order view reads `menu_item`. The cart-item serializer declares `menu_item` (`cart/serializers.py:10`), so the add view's `validated_data["menu"]` (`cart/views.py:128`) would raise a `KeyError` as written. The model takes the add as intended.
- The cart-item route's `pk` is the views' `item_id`.
- `MenuDetailView.patch`/`delete` receive the menu's `pk`.
- The role the restaurant view reads (`user.role`) is an attribute of the requester, compared with the string `"owner"`.

## Model

| member | source | states |
|---|---|---|
| `Tables.Get` | cart/views.py:131-133 | a `get` answers `One(i)` exactly when row `i` is the only match, `Missing` exactly when no row matches, `Many` exactly when two rows match |
| `Tables.Filter` | orders/views.py:64 | every returned row is in the table and satisfies the condition, and every table row that satisfies it is returned |
| `Tables.FilterAppend` | customer/views.py:21 | filtering keeps table order: it distributes over concatenation |
| `Tables.FilterDistinct` | cart/views.py:81 | deleting rows by a condition keeps a unique column unique |
| `Users.Age` | users/models.py:35-45 | no date of birth gives `None`; otherwise the result is the number of birth anniversaries reached by today: the `age`-th anniversary is not after today and the next one is |
| `Users.AgeDecrement` | users/models.py:38-43 | the age is `today.year - dob.year - 1` exactly when (today.month, today.day) is before (dob.month, dob.day), and the plain year difference otherwise |
| `Users.AgeOnBirthday` | users/models.py:39-42 | on the birthday the age is the plain year difference |
| `Users.WholeYearsUnique` | users/models.py:37-44 | any count satisfying the anniversary characterisation is the computed age |
| `Users.AgeNonNegative` | users/models.py:37-44 | a birth date not after today gives a non-negative age |
| `Users.AgeMonotone` | users/models.py:37-44 | for a fixed birth date the age never decreases as today advances |
| `Carts.CartFor` | cart/views.py:181 | a found cart is in the table and belongs to the user; with one cart per customer, none is found exactly when the user has no cart |
| `Carts.CartForAppended` | cart/views.py:41 | a cart appended for a customer who had none is the one the lookup then finds |
| `Carts.AcceptedQuantityIsPositive` | cart/views.py:212-220 | the patch guard accepts exactly the present, positive quantities |
| `Carts.WithoutCartKeepsOthers` | cart/views.py:80-81 | after clearing a cart it has no items, and every other cart's items are exactly as before |
| `Carts.CartStore.GetObject` | cart/views.py:28-42 | get-or-create: an existing cart is returned with the cart table unchanged; otherwise one new cart for the user is appended; items are untouched |
| `Carts.GetObjectTwice` | cart/views.py:41 | a second get-or-create returns the same cart, and the user then has exactly one cart |
| `Carts.CartStore.Clear` | cart/views.py:66-81 | the cart is fetched or created, then exactly its items are deleted; the cart row and all other items stay |
| `Carts.CartStore.AddItem` | cart/views.py:124-140 | cart get-or-create first; a refused payload changes no item; the quantity defaults to 1; a (cart, menu, quantity) match grows by the quantity, no match appends a row with exactly that quantity, several matches fail with nothing changed |
| `Carts.CartStore.InsertItem` | cart/views.py:131-138 | a created cart item is appended with the next id and exactly the given cart, menu and quantity; nothing else changes |
| `Carts.CartStore.SaveQuantity` | cart/views.py:221-222 | saving a quantity changes only that row's quantity |
| `Carts.ScenarioLookups` | cart/views.py:131-133 | the (cart, menu, quantity) lookup on the tables of the scenario below: it matches, misses, or matches two rows |
| `Carts.DuplicateRowsScenario` | cart/views.py:124-140 | from an empty store, four adds of one menu and a fifth with quantity 2 end in the multiple-rows failure |
| `Carts.CartStore.RemoveItem` | cart/views.py:181-183 | no cart, or no item with that id in the requester's cart, is not-found with nothing changed; otherwise exactly that row is deleted and the other rows keep their order |
| `Carts.CartStore.SetQuantity` | cart/views.py:209-222 | the ownership lookups come first (not-found, no change); a missing, zero or negative quantity is rejected with no change; otherwise only that item's quantity becomes the given value |
| `Carts.CartStore.DeleteCart` | orders/views.py:76 | the cart row and, by cascade, its items are deleted; nothing else changes |
| `Orders.Snapshot` | orders/views.py:62-72 | one order item per cart item, in cart-item order, each copying the menu and quantity, taking the item's price and referencing the order |
| `Orders.SnapshotKeepsTotal` | orders/views.py:62-74 | the snapshot's sum of price times quantity equals the cart lines' sum under the same pricing |
| `Orders.OrderStore.CreateOrder` | orders/views.py:56-60 | one order row with the given customer, status and total is appended |
| `Orders.OrderStore.BulkCreate` | orders/views.py:74 | the order items are appended in the order given |
| `Orders.PlaceOrder` | orders/views.py:44-76 | no cart: rejected, nothing changes; otherwise a `PENDING` order for the requester with the cart's total is appended, followed by the snapshot of the cart's items after all earlier order items, which stay unchanged; the cart and its items are deleted and the user has no cart |
| `Orders.PlaceOrderTwice` | orders/views.py:44-51 | a second placement right after the first is rejected: one cart never yields two orders |
| `Restaurants.OwnedRestaurantExactly` | restaurants/views.py:134-138 | the owned-restaurant lookup never matches twice, and succeeds exactly when the restaurant with that key is owned by the requester |
| `Restaurants.OwnedMenuExactly` | restaurants/views.py:273-277 | the owned-menu lookup never matches twice, and succeeds exactly when the menu with that key belongs to a restaurant the requester owns |
| `Restaurants.ListAsWritten` | restaurants/views.py:42-60 | as written, whoever asks: an empty table lists nothing, and any non-empty table is a server error, because the class-level queryset raises when serialized |
| `Restaurants.OwnedRestaurants` | restaurants/views.py:13-16 | the documented listing: every entry is a restaurant of the table owned by the requester, and every such restaurant is listed |
| `Restaurants.OwnedRestaurantsAtMostOne` | restaurants/views.py:86-94 | with one restaurant per owner, which the create view enforces, the documented listing has at most one entry |
| `Restaurants.ListHidesOwnedRestaurant` | restaurants/views.py:42-56 | whenever the requester owns a restaurant, the view as written fails while the documented listing is non-empty |
| `Restaurants.ListOneRestaurant` | restaurants/views.py:42-56 | one restaurant listed by its owner: the view as written gives a server error, and the documented listing gives that restaurant |
| `Restaurants.Catalog.Create` | restaurants/views.py:77-97 | a role other than "owner" is forbidden; an owner who already owns a restaurant gets a bad request; a refused payload gets a bad request; each with no change; otherwise exactly one restaurant owned by the requester is appended; one restaurant per owner is kept |
| `Restaurants.Catalog.Patch` | restaurants/views.py:156-163 | not found or not owned gives not-found with no change; a refused payload gives bad request with no change; otherwise only that restaurant's supplied fields change |
| `Restaurants.Catalog.Delete` | restaurants/views.py:188-189 | not found or not owned gives not-found with no change; otherwise exactly the matched restaurant is removed |
| `Restaurants.Catalog.CreateMenu` | restaurants/views.py:226-234 | a restaurant with that key owned by the requester is required (else not-found, no change); a refused payload gives bad request; otherwise one menu linked to that restaurant is appended |
| `Restaurants.Catalog.PatchMenuItem` | restaurants/views.py:295-302 | only a menu whose restaurant the requester owns can be updated, else not-found with no change; only its supplied fields change |
| `Restaurants.Catalog.DeleteMenu` | restaurants/views.py:326-327 | only a menu whose restaurant the requester owns can be deleted, else not-found with no change; exactly that menu is removed |
| `MenuBrowse.MenuItemsFor` | customer/views.py:13-34 | an unknown restaurant is not-found; a known restaurant is not-found exactly when it has no menu, and fails with the multiple-rows error exactly when it has two |
| `MenuBrowse.BrowseSoundAndComplete` | customer/views.py:21-32 | every listed record is the (id, name, description, price) of an item of that restaurant's menu, and every such item is listed |
| `MenuBrowse.RecordsKeepOrder` | customer/views.py:21-32 | the listing follows table order |
| `MenuBrowse.RecordsAppend` | customer/views.py:24-32 | projecting records distributes over concatenation |
| `MenuBrowse.TwoMenusFail` | customer/views.py:18 | a restaurant with two menus makes the browse fail instead of listing |

## Findings

| source | as written | input that shows it | evidently intended | confidence | as-written member | corrected member |
|---|---|---|---|---|---|---|
| restaurants/views.py:42 | the list view reads the class-level `queryset` of all restaurants. Django REST framework's `as_view` makes that queryset raise when it is evaluated, so serializing it fails | a table holding one restaurant, owned by user 7, who sends a GET: the response is a server error | the documented listing: the requester's own restaurants (`get_queryset`, `restaurants/views.py:28-29`, docstring `:16`) | high, not executed; the raising guard is in Django REST framework, which is not part of this model | `Restaurants.ListAsWritten`, `Restaurants.ListOneRestaurant`, `Restaurants.ListHidesOwnedRestaurant` | `Restaurants.OwnedRestaurants`, `Restaurants.OwnedRestaurantsAtMostOne` |

## Left out

- HTTP plumbing is not modelled: response envelopes and messages, permission classes, schema decorators and URL routing. Only each view's outcome is.
- Serializers are not modelled: their field lists, the data they return, and their validation. Validation is the boolean parameter `payloadValid`. In particular, the add view's quantity and menu are taken as given, with no sign check of its own.
- The registration views, the admin configuration, the e-mail templates and the HTTP smoke test are not part of this model.
- The bodies of `Cart.calculate_total_price` and `CartItem.cart_item_price` are not part of this model. They are the parameters `cartTotal` and `itemPrice`. An order's total therefore equals its lines' sum only when `cartTotal` sums `itemPrice` times quantity; `Orders.SnapshotKeepsTotal` states the part that holds whatever the bodies are.
- Model-level constraints and cascades are not part of this model.
  - A possible unique constraint on (cart, menu) is not modelled.
  - Deleting a restaurant removes only its row. Its menus stay, but every ownership lookup through the missing restaurant fails.
  - Deleting a cart does cascade to its items.
- The menu-item table is only read. No view in this model writes it.
- `Carts.CartStore.SetQuantity` models integer quantities only: the payload value is an optional integer. Other values run through `int()` (`cart/views.py:213,221`) and are not modelled:
  - a number between -1 and 1 that is not zero, such as `0.5` or `-0.5`, passes the guard and stores 0;
  - any other non-integer number is truncated toward zero before the check and the save;
  - a string such as `"0"` is truthy, passes the guard and stores 0;
  - a non-numeric string makes `int()` raise;
  - a boolean `true` stores 1, and `false` is refused as falsy.
- Transactions and concurrency are not modelled: the code runs placement without a transaction, so nothing is rolled back.
- The clock is not modelled: today's date is a parameter of `Users.Age`.
- `Users.Age` does not check that its dates are valid calendar dates in Python's year range; it uses only their (year, month, day) order.
