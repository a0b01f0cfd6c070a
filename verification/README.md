# A verified model of the shop's store app

This project models the core of a Django REST shop in Dafny and proves properties of that model. It covers the `store` app:

- **Money and tables:** the record types, field bounds, choice enums, defaults and `on_delete` policies of the shop's tables (`store/models.py`). Money is held as integer cents.
- **Order placement:** `AddOrderSerializer` turns a cart into an order. It validates the cart id, looks up the caller's customer, creates the order, bulk-creates one order item per cart item with the product's price copied in, and deletes the cart.
- **Cart-item upsert:** `AddCartItemSerializer` validates the product and the quantity. It then raises the quantity of the cart's row for that product, or inserts a new row.
- **Totals:** the cart-item total and the cart total (`store/serializers.py`).
- **Product and category views:** the 404 lookups, the listing of categories in ascending id order, and the DELETE branches. A DELETE answers 405 while the row is still referred to (`store/views.py`).
- **Product admin:** the inventory status column, the inventory list filter and the "Clear Inventory" bulk action (`store/admin.py`).

The database is a value `Models.Db`, with one map from id to record per table. It also holds the next value of the id sequence for orders, order items and cart items, the three tables this model inserts rows into. `Models.Consistent` states the integrity constraints the schema declares:

- every foreign key resolves;
- prices fit `DecimalField(max_digits=10, decimal_places=2)`;
- ids lie below their sequence's next value.

Two rules are not declared in the schema but the serializers rely on them. Each is its own predicate:

- one customer per user (`UniqueUsers`);
- one cart item per (cart, product) pair (`UniqueCartLines`).

Every state-changing operation of the serializers, views and admin appears twice:

- **A pure function on `Db`.** For example, `Serializers.OrderPlacement`, `Serializers.CartItemAdded` and `Views.ProductDeleted`. The lemmas reason about it.
- **A method on the mutable `Database.Store`.** The store has one map field per table. The method performs the operation step by step, as the source does, and is proved to reach exactly the state the function describes. It is also proved to keep `Valid()`.

The deletion of an order or a customer (`Models.OrderDeletion`, `Models.CustomerDeletion`) is modelled only as a pure function. No operation of the core deletes those rows; the functions record what the declared `on_delete` policies would do.

Files:

- `wrappers.dfy`: Option, Result, Outcome.
- `ids.dfy`: ids, the smallest id of a set, and the ascending-id listing that the database's iteration order and `order_by('id')` produce.
- `models.dfy`: tables, constraints and deletion under PROTECT, CASCADE and SET_NULL.
- `database.dfy`: the mutable store.
- `serializers.dfy`, `views.dfy`, `admin.dfy`: the three core source files.
- `history.dfy`: what the later product operations of the views and the admin do to an order already placed.

## Model

| member | source | states |
|---|---|---|
| Models.PriceHasTenDigits | store/models.py:30-31 | A unit price is valid exactly when it is a non-negative number of cents with at most 10 digits. |
| Models.PriceWholeUnits | store/models.py:30-31 | With two decimal places out of ten digits, a valid price is exactly a non-negative amount whose whole-unit part is below 10^8. |
| Models.MembershipCode | store/models.py:45-58 | Every tier is stored as one of the codes B, S, G. |
| Models.MembershipChoice | store/models.py:45-58 | Exactly the codes B, S and G denote a tier, and the tier read back has that code. |
| Models.MembershipRoundTrip | store/models.py:45-58 | Storing a tier and reading it back gives the same tier. |
| Models.PaymentStatusCode | store/models.py:72-85 | Every payment status is stored as one of the codes P, C, F. |
| Models.PaymentStatusChoice | store/models.py:72-85 | Exactly the codes P, C and F denote a status, and the status read back has that code. |
| Models.PaymentStatusRoundTrip | store/models.py:72-85 | Storing a payment status and reading it back gives the same status. |
| Models.StoredDefaults | store/models.py:54-85 | A new customer's membership is stored as 'B' (Bronze) and a new order's payment status as 'P' (Pending). |
| Models.CartDeletion | store/models.py:114-115 | After a cart delete the cart is gone and no remaining cart item points at it. |
| Models.CartDeletionCascades | store/models.py:114-115 | Deleting a cart removes it and all of its items (CASCADE). The remaining carts are exactly the others, unchanged. The remaining cart items are exactly those of other carts, unchanged, so none is added. Every other table is kept, and consistency and one-row-per-pair are preserved. |
| Models.ProductDeletion | store/models.py:96-98 | Deleting a product fails with ProtectedError exactly when an order item or a cart item refers to it (PROTECT). |
| Models.ProductDeletionEffect | store/models.py:14-17 | A product delete that goes through removes only that product. Each category that featured it becomes the same category with the link set to null (SET_NULL), other categories are unchanged, no category is added or removed, and the store stays consistent. |
| Models.CategoryDeletion | store/models.py:35 | Deleting a category fails with ProtectedError exactly when a product is in it (PROTECT). |
| Models.CategoryDeletionEffect | store/models.py:27-35 | A category delete that goes through removes only that category and keeps the store consistent. |
| Models.OrderDeletion | store/models.py:96-97 | Deleting an order fails exactly when it has order items (PROTECT). |
| Models.OrderDeletionEffect | store/models.py:96-97 | An order delete that goes through removes only that order and keeps the store consistent. |
| Models.CustomerDeletion | store/models.py:87 | Deleting a customer fails exactly when they have orders (PROTECT). |
| Models.CustomerDeletionEffect | store/models.py:103-107 | A customer delete that goes through removes the customer and exactly their addresses (CASCADE). The remaining addresses are exactly the other customers' ones, unchanged, so none is added. Other tables are unchanged, and consistency and one-customer-per-user are kept. |
| Ids.SortedIds | store/serializers.py:45-46 | Lists every id of a set exactly once: the same members and the same size. |
| Ids.SortedIdsAscending | store/views.py:45-46 | That listing is strictly ascending, which is the database's order by id. |
| Database.BulkInserted | store/serializers.py:55 | `bulk_create` puts the i-th line under the i-th id from the sequence's next value. It adds no other key and keeps every earlier row. |
| Database.Store.InsertOrder | store/serializers.py:44-55 | Creating the order and bulk-creating its items changes exactly the order and order-item tables and their sequences. |
| Database.Store.DeleteCart | store/serializers.py:56 | On the store, the cart delete reaches exactly the state `CartDeletion` describes and keeps the store valid. |
| Database.Store.DeleteProduct | store/views.py:38 | `product.delete()` either fails with ProtectedError, leaving the store unchanged, or reaches the state `ProductDeletion` describes. |
| Database.Store.DeleteCategory | store/views.py:72 | `category.delete()` either fails with ProtectedError, leaving the store unchanged, or reaches the state `CategoryDeletion` describes. |
| Serializers.CartIdMessages | store/serializers.py:30-36 | A missing cart is refused with "This cart does not exist." and an empty one with "This cart is empty.". |
| Serializers.ValidateCartId | store/serializers.py:28-37 | "This cart does not exist." is raised exactly when the cart is missing. "This cart is empty." is raised exactly when the cart exists with no items. Otherwise the id comes back unchanged. |
| Serializers.CustomerByUser | store/serializers.py:42-43 | `Customer.objects.get(user_id=…)` returns a customer of that user. DoesNotExist is raised exactly when none exists. MultipleObjectsReturned is raised exactly when two different customers have that user, so it cannot happen while users are one-to-one. |
| Serializers.CartLines | store/serializers.py:45-46 | The cart-items query yields exactly the cart's items, each once. |
| Serializers.CartLinesPriced | store/serializers.py:45-54 | In a consistent store, every cart item's product is present, so each line's price can be read. |
| Serializers.OrderLines | store/serializers.py:48-54 | The comprehension builds one order item per cart item, in order. Each copies the product and quantity, carries the product's current price and points at the new order. |
| Serializers.OrderCreated | store/serializers.py:44-55 | Creating the order adds exactly one order, Pending, of the given customer, under the next order id. The order-item sequence advances by the number of cart lines, and the cart and its items are untouched. |
| Serializers.OrderCreatedConsistent | store/serializers.py:44-55 | Creating the order and its items keeps every constraint of the store. |
| Serializers.OrderCreatedItems | store/serializers.py:48-55 | After `bulk_create`, the old order items are unchanged. The only new ids are the next block, as many as the cart has lines, and the i-th holds the cart's i-th line. |
| Serializers.NewOrderItemIds | store/serializers.py:48-55 | The new order's items are exactly the freshly inserted ids. |
| Serializers.OrderPlacement | store/serializers.py:25-57 | "Cart does not exist" exactly when the cart is missing, and "cart is empty" exactly when it exists with no items. DoesNotExist is raised exactly when a valid cart's user has no customer. Placement succeeds exactly when the cart exists, has items and the customer lookup finds one customer. |
| Serializers.PlacementSucceeds | store/serializers.py:39-57 | With users and customers one to one, a cart that exists and has items is placed whenever the caller's user has a customer, under the next order id. |
| Serializers.OrderSaved | store/serializers.py:39-57 | `save()` fails exactly when the customer lookup fails, with the lookup's error. On success it returns the next order id and the cart is gone. |
| Serializers.OrderSavedEffect | store/serializers.py:39-57 | After `save()`, the store is consistent. There is one new Pending order of the caller's customer, its items copy the cart's lines under fresh ids, the cart and its items are gone, and the other tables are unchanged. |
| Serializers.OrderPlacementEffect | store/serializers.py:25-57 | A successful placement adds exactly one new Pending order of the caller's customer and keeps the existing orders and order items. It removes the cart and exactly its items: the remaining cart items are exactly those of other carts, unchanged, so none is added. It leaves the other tables unchanged, and placing the same cart again is refused as missing. |
| Serializers.OrderMirrorsCart | store/serializers.py:45-55 | The new order's items correspond one to one with the cart's items: as many as the cart had, with the i-th copying the i-th cart line, carrying its product's price at placement time and pointing at the new order. |
| Serializers.BuildOrderLines | store/serializers.py:48-54 | The loop that builds the order lines produces exactly the comprehension's list. |
| Serializers.CreateOrder | store/serializers.py:44-55 | Creating the order and its items on the store reaches the state `OrderCreated` describes, under the next order id, and keeps the store valid. |
| Serializers.SaveOrder | store/serializers.py:39-57 | `save()` on the store is all or nothing. A failed customer lookup leaves the store unchanged; otherwise the store reaches the state `OrderSaved` describes. |
| Serializers.PlaceOrder | store/serializers.py:25-57 | Validation and then `save()` on the store. Every error leaves the store unchanged; a success reaches the state `OrderPlacement` describes. |
| Serializers.ProductIdMessage | store/serializers.py:147-149 | An unknown product id is refused with "This product was not found in our database.". |
| Serializers.ValidateProductId | store/serializers.py:146-150 | An unknown product id is rejected; a known one comes back unchanged. |
| Serializers.ValidateQuantity | store/serializers.py:141-143 | The quantity field accepts exactly the integers of at least 1. |
| Serializers.CartItemAdded | store/serializers.py:138-166 | An unknown product is rejected first and a quantity below 1 second. A success implies both were valid. |
| Serializers.SingleLine | store/serializers.py:157-159 | With one row per pair, `CartItem.objects.get` finds the pair's single row. |
| Serializers.CartItemAddedEffect | store/serializers.py:157-165 | An existing pair's row gains the requested quantity and no row is added. Otherwise exactly one row with that quantity is inserted under a fresh id, or the insert fails when the cart is missing. Several rows are never found. |
| Serializers.CartItemAddedKeepsInvariants | store/serializers.py:152-166 | A successful upsert keeps consistency and one-row-per-pair, and changes nothing outside the cart-item table. |
| Serializers.TwoAddsMerge | store/serializers.py:152-166 | Adding q1 and then q2 of a product the cart lacks leaves one row for the pair, holding q1 + q2. |
| Serializers.UpsertWritesOneRow | store/serializers.py:157-165 | A successful upsert writes exactly the pair's row, holding its previous units (none if new) plus the added ones. Nothing else changes. |
| Serializers.AddCartItem | store/serializers.py:138-166 | The upsert on the store. Every error leaves the store unchanged; a success reaches the state `CartItemAdded` describes and keeps the store valid. |
| Serializers.CartItemSaved | store/serializers.py:152-166 | A successful `save()` returns a row of that cart for that product and leaves the products unchanged. An integrity error means the cart or the product is missing. |
| Serializers.SaveCartItem | store/serializers.py:152-166 | `save()` on the store either increments the pair's row in place or inserts one, exactly as `CartItemSaved` describes. |
| Serializers.ItemTotal | store/serializers.py:134-135 | An item's total is non-negative for a valid price and equals the unit price for a single unit. |
| Serializers.CartTotal | store/serializers.py:181-185 | An empty cart's total is 0. |
| Serializers.TotalOfRemove | store/serializers.py:183-184 | Any item can be added first: the sum does not depend on the order in which the items are visited. |
| Serializers.TotalAfterIncrement | store/serializers.py:160-161 | Raising a row's quantity raises its cart's total by the added units times the price. |
| Serializers.TotalAfterInsert | store/serializers.py:163-165 | A new row adds its own total to its cart's total. |
| Serializers.UpsertRaisesTotal | store/serializers.py:157-165 | A successful upsert of q units raises the cart's total by exactly q times the product's price. |
| Serializers.UpsertKeepsOtherTotals | store/serializers.py:157-165 | A successful upsert leaves every other cart's total unchanged. |
| Serializers.CartTotalPrice | store/serializers.py:181-185 | The accumulating loop returns the sum of quantity times unit price over the cart's items. |
| Views.GetOr404 | store/views.py:25 | `get_object_or_404` answers 404 exactly when the id is missing, and otherwise returns that row. |
| Views.ProductDetail | store/views.py:24-29 | GET on a product answers 404 exactly when it is missing and 200 with the row exactly when it is present. |
| Views.CategoryDetail | store/views.py:58-63 | GET on a category answers 404 exactly when it is missing and 200 with the row exactly when it is present. |
| Views.CategoryList | store/views.py:43-49 | The listing has every category exactly once, each with its own row. |
| Views.CategoryListAscending | store/views.py:45-46 | The listing is strictly ascending by id. |
| Views.ProductDeleted | store/views.py:35-39 | The DELETE answers 404 exactly when the product is missing and 405 exactly when it exists and has been ordered. Unless it answers 204, nothing changes. |
| Views.ProductDeleteOutcome | store/views.py:35-39 | Product DELETE answers:<br>• 404 exactly when the product is missing;<br>• 405 with the "has been ordered" message exactly when an order item refers to it;<br>• 204 exactly when nothing refers to it. The new state is then exactly the one the model's product delete reaches: only that product is removed, each category that featured it has the link set to null, the other categories are unchanged, and the store stays consistent.<br>Nothing changes unless the answer is 204. |
| Views.ProductDeleteKeepsOrderItems | store/views.py:35-39 | A product DELETE, whatever its answer, leaves every order item as it was. |
| Views.OrderedProductSurvives | store/views.py:36-37 | A product that has been ordered is never removed through the view. |
| Views.ProductDeleteTwice | store/views.py:24-39 | After a successful product DELETE, the same request answers 404. |
| Views.ProductDelete | store/views.py:35-39 | The DELETE branch on the store gives `ProductDeleted`'s answer and state, and keeps the store valid. |
| Views.CategoryDeleted | store/views.py:69-73 | The DELETE answers 404 exactly when the category is missing and 405 exactly when it exists and a product is in it. Unless it answers 204, nothing changes. |
| Views.CategoryDeleteOutcome | store/views.py:69-73 | Category DELETE answers:<br>• 404 exactly when the category is missing;<br>• 405 with the "assigned to some products" message exactly when a product is in it;<br>• 204 otherwise, removing only that category.<br>It never answers 500, and nothing changes unless the answer is 204. |
| Views.CategoryDelete | store/views.py:69-73 | The DELETE branch on the store gives `CategoryDeleted`'s answer and state, and keeps the store valid. |
| Admin.InventoryStatus | store/admin.py:86-90 | The status is "Low" exactly when inventory is below 10 and "OK" exactly when it is 10 or more. |
| Admin.InventoryFilter | store/admin.py:41-49 | "<10" keeps exactly the products with inventory below 10, and ">=10" exactly those with 10 or more. Both keep rows unchanged. Any other value returns nothing. |
| Admin.FilterPartitions | store/admin.py:35-49 | The two choices split the products: disjoint, jointly everything, and each side shows the status its choice names. |
| Admin.UnknownChoiceShowsAll | store/admin.py:41-49 | With no filter or an unknown value, the change list shows the whole queryset. |
| Admin.InventoryCleared | store/admin.py:74-80 | `queryset.update(inventory=0)` keeps the same products, sets every selected one's inventory to 0 and leaves the others unchanged. |
| Admin.ClearedAreLow | store/admin.py:74-76 | After the action, selected products have 0 units and show "Low", with their other fields unchanged. Unselected products are unchanged, and no product is added or removed. |
| Admin.ClearIdempotent | store/admin.py:76 | Clearing the same selection twice is the same as clearing it once. |
| Admin.ClearKeepsConsistent | store/admin.py:76 | Clearing inventory keeps the store consistent. |
| Admin.ClearInventory | store/admin.py:74-80 | The action reports the number of selected products and changes only their inventory, to 0. |
| OrderHistory.LaterChangesKeepOrderItems | store/views.py:35-39 | Clearing any selection's inventory and then a product DELETE on any product leave every order item, with its price, as it was. |
| OrderHistory.PriceSnapshot | store/serializers.py:52 | The items of a placed order keep the prices their products had at placement time. This still holds after the admin clears any selection's inventory and a product DELETE is then made on any product. |

## Left out

- **HTTP and the API framework:** request parsing, routing, authentication and permissions, and the serialized output (field lists, nested serializers). A response is a tag plus the error text.
- **Other view branches:** the GET list and POST branches of `product_list` and `category_list`, and the PUT branches of `product` and `category`. Only the GET and DELETE branches of `product` and `category`, and the GET listing of `category_list`, are modelled.
- **Validation error reporting:** the framework reports every invalid field at once. `Serializers.CartItemAdded` reports only the first, checking the product id before the quantity.
- **`get_price_with_tax`:** it multiplies by a binary floating-point constant. Promotions, reviews and product images are not part of this model either.
- **Admin display:** `message_user`, `format_html` links and the Count annotations are not modelled. `Admin.ClearInventory` returns the count that the message displays.
- **Transactions and concurrency:** each operation runs alone. `transaction.atomic()` is one all-or-nothing step, and every error path leaves the store unchanged.
- **Clock:** `placed_at`, `created_at` and `last_updated` are given as the `now` parameter. `queryset.update` does not touch `last_updated`.
- **Cart ids:** the source uses UUIDs; the model uses the same natural-number ids as every other table.
- **Iteration order:** a queryset without `order_by` is taken in ascending id order. The ordering of the cart's order lines depends on it; no other proved property does.
- **`Meta.ordering` by title:** not modelled. Only the explicit `order_by('id')` of the category listing is.
- **Fields missing from `store/models.py`:** `Customer.user_id`, `CartItem.quantity` and the one-row-per-(cart, product) rule are used by the serializers but absent from that file. They are modelled as the serializers require:
  - a one-to-one user link;
  - a quantity of at least 1;
  - uniqueness as the separate predicate `UniqueCartLines`.
- **Reverse names:** these are used in the code but absent from `store/models.py`. The model defines each as a reverse relation:
  - `product.orderitems`, the reverse of `OrderItem.product`, is `OrderedProduct`;
  - `category.products`, the reverse of `Product.category`, is `CategoryInUse`;
  - `cart.cartitems`, the reverse of `CartItem.cart`, is `CartItemIdsOf`.
  
  `OrderItemIdsOf` is the reverse of `OrderItem.order`, which the PROTECT on orders and the new order's items use.
- **Customer lookup:** `Serializers.CustomerByUser` follows the code's plain `get`, which raises when the user has no customer. It does not create one.
- **Views.ProductDeleteOutcome:** the view guards only against order items, so a product that sits only in carts makes `product.delete()` raise ProtectedError. The model answers that case with 500.
- **Ids.SortedIds:** the contract states only the members and the size; the ascending order is the separate lemma `Ids.SortedIdsAscending`.
- **Serializers.CartTotal:** it is a ghost sum over the cart's items. The executable loop is `Serializers.CartTotalPrice`, which is proved equal to it.
- **Serializers.CartItemAddedEffect, Serializers.TwoAddsMerge, Serializers.OrderPlacement:** quantities and inventory are unbounded `nat`s. The database's positive-integer columns have an upper bound, and the model does not state it. So it does not model the error the database raises when an increment (store/serializers.py:160) or a copied quantity (store/serializers.py:53) exceeds that bound, which would roll the placement back. There, these members report success.
- **Decimal arithmetic:** modelled as exact integer cents. Totals are unbounded integers; the model does not bound them to the decimal field's ten digits, since the source does not store them.
