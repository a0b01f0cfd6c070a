/**
 * The serializers that change the store (store/serializers.py): order
 * placement from a cart (AddOrderSerializer), the cart-item upsert
 * (AddCartItemSerializer), and the cart and cart-item totals.
 *
 * Each operation is a pure function on a database snapshot, which the
 * lemmas reason about, and a method that performs it on the Store step by
 * step and is proved to reach exactly the state the function describes.
 */
module Serializers {
  import opened Wrappers
  import opened Ids
  import opened Models
  import opened Database

  // =====================================================================
  // Order placement (AddOrderSerializer)
  // =====================================================================

  /**
   * The first two are the validation errors of `validate_cart_id`; the
   * last two are the exceptions `Customer.objects.get` raises inside the
   * atomic block.
   */
  datatype OrderError = CartDoesNotExist | CartIsEmpty | CustomerDoesNotExist | MultipleCustomersReturned

  /** The validation message shown to the client, if the error is a validation error. */
  function ValidationMessage(e: OrderError): Option<string>
  {
    match e
    case CartDoesNotExist => Some("This cart does not exist.")
    case CartIsEmpty => Some("This cart is empty.")
    case _ => None
  }

  /** Each rejection of `validate_cart_id` carries its own validation message. */
  lemma CartIdMessages(db: Db, cartId: Id)
    ensures var r := ValidateCartId(db, cartId);
      && (cartId !in db.carts ==> ValidationMessage(r.error) == Some("This cart does not exist."))
      && (cartId in db.carts && CartItemIdsOf(db.cartItems, cartId) == {} ==>
            ValidationMessage(r.error) == Some("This cart is empty."))
  {
  }

  /** Existence first, then emptiness; a valid id comes back unchanged. */
  function ValidateCartId(db: Db, cartId: Id): (r: Result<Id, OrderError>)
    ensures r == Failure(CartDoesNotExist) <==> cartId !in db.carts
    ensures r == Failure(CartIsEmpty) <==>
      cartId in db.carts && forall k :: k in db.cartItems ==> db.cartItems[k].cart != cartId
    ensures r.Success? <==>
      cartId in db.carts && exists k :: k in db.cartItems && db.cartItems[k].cart == cartId
    ensures r.Success? ==> r.value == cartId
  {
    if cartId !in db.carts then Failure(CartDoesNotExist)
    else if |CartItemIdsOf(db.cartItems, cartId)| == 0 then Failure(CartIsEmpty)
    else Success(cartId)
  }

  /** `Customer.objects.get(user_id=userId)`: none, exactly one, or several rows. */
  function CustomerByUser(customers: map<Id, Customer>, userId: Id): (r: Result<Id, OrderError>)
    ensures r.Success? ==> r.value in customers && customers[r.value].userId == userId
    ensures r == Failure(CustomerDoesNotExist) <==> forall c :: c in customers ==> customers[c].userId != userId
    ensures r.Failure? ==> r.error == CustomerDoesNotExist || r.error == MultipleCustomersReturned
    ensures r == Failure(MultipleCustomersReturned) <==>
      exists a, b :: a in customers && b in customers && a != b && customers[a].userId == userId && customers[b].userId == userId
    ensures UniqueUsers(customers) ==> r != Failure(MultipleCustomersReturned)
  {
    var matching := set c | c in customers && customers[c].userId == userId;
    var ks := SortedIds(matching);
    if |ks| == 0 then
      assert forall c :: c in customers && customers[c].userId == userId ==> c in matching;
      Failure(CustomerDoesNotExist)
    else if |ks| == 1 then
      assert ks[0] in ks;
      forall a, b | a in customers && b in customers && a != b && customers[a].userId == userId && customers[b].userId == userId
        ensures |matching| >= 2
      {
        assert a in matching && b in matching;
        TwoMembers(matching, a, b);
      }
      assert |matching| == 1;
      Success(ks[0])
    else
      assert ks[0] in ks && ks[1] in ks;
      assert ks[0] in matching && ks[1] in matching && ks[0] != ks[1];
      Failure(MultipleCustomersReturned)
  }

  /** The cart's items in the order the database returns them: ascending id. */
  function CartLines(db: Db, cartId: Id): (ks: seq<Id>)
    ensures |ks| == |CartItemIdsOf(db.cartItems, cartId)|
    ensures forall k :: k in ks <==> k in db.cartItems && db.cartItems[k].cart == cartId
  {
    SortedIds(CartItemIdsOf(db.cartItems, cartId))
  }

  /** The order item built from one cart item, with the product's current price copied in. */
  function OrderLine(db: Db, order: Id, k: Id): OrderItem
    requires k in db.cartItems && db.cartItems[k].product in db.products
  {
    var item := db.cartItems[k];
    OrderItem(order, item.product, item.quantity, db.products[item.product].unitPrice)
  }

  /** Every listed cart item exists and its product exists, so its order line can be built. */
  predicate LinesPriced(db: Db, ks: seq<Id>)
  {
    forall i :: 0 <= i < |ks| ==> ks[i] in db.cartItems && db.cartItems[ks[i]].product in db.products
  }

  /** Every line of a cart in a consistent database names an existing cart item and product. */
  lemma CartLinesPriced(db: Db, cartId: Id)
    requires Consistent(db)
    ensures LinesPriced(db, CartLines(db, cartId))
  {
  }

  /** The list comprehension: one order item per cart item, in iteration order. */
  function OrderLines(db: Db, order: Id, ks: seq<Id>): (lines: seq<OrderItem>)
    requires LinesPriced(db, ks)
    ensures |lines| == |ks|
    ensures forall i :: 0 <= i < |ks| ==> lines[i] == OrderLine(db, order, ks[i])
  {
    seq(|ks|, i requires 0 <= i < |ks| => OrderLine(db, order, ks[i]))
  }

  /** A placed order: the database afterwards and the new order's id. */
  datatype Placed = Placed(db: Db, order: Id)

  /** The state inside the atomic block after `bulk_create`, before the cart is deleted. */
  function OrderCreated(db: Db, customer: Id, cartId: Id, now: int): (d: Db)
    requires LinesPriced(db, CartLines(db, cartId))
    ensures d.orders.Keys == db.orders.Keys + {db.nextOrderId}
    ensures d.orders[db.nextOrderId] == Order(customer, Pending, now)
    ensures d.nextOrderItemId == db.nextOrderItemId + |CartLines(db, cartId)|
    ensures d.carts == db.carts && d.cartItems == db.cartItems
  {
    var order := db.nextOrderId;
    var lines := OrderLines(db, order, CartLines(db, cartId));
    db.(orders := db.orders[order := Order(customer, DefaultPaymentStatus, now)],
        nextOrderId := order + 1,
        orderItems := BulkInserted(db.orderItems, db.nextOrderItemId, lines),
        nextOrderItemId := db.nextOrderItemId + |lines|)
  }

  /** `AddOrderSerializer.save`: all of it, or nothing if the customer lookup raises. */
  function OrderSaved(db: Db, cartId: Id, userId: Id, now: int): (r: Result<Placed, OrderError>)
    requires Consistent(db)
    ensures r.Failure? <==> CustomerByUser(db.customers, userId).Failure?
    ensures r.Failure? ==> r.error == CustomerByUser(db.customers, userId).error
    ensures r.Success? ==> r.value.order == db.nextOrderId && cartId !in r.value.db.carts
  {
    match CustomerByUser(db.customers, userId)
    case Failure(e) => Failure(e)
    case Success(customer) =>
      CartLinesPriced(db, cartId);
      Success(Placed(CartDeletion(OrderCreated(db, customer, cartId, now), cartId), db.nextOrderId))
  }

  /** Validation followed by save: what a POST with a cart id does to the store. */
  function OrderPlacement(db: Db, cartId: Id, userId: Id, now: int): (r: Result<Placed, OrderError>)
    requires Consistent(db)
    ensures r == Failure(CartDoesNotExist) <==> cartId !in db.carts
    ensures r == Failure(CartIsEmpty) <==> cartId in db.carts && CartItemIdsOf(db.cartItems, cartId) == {}
    ensures r == Failure(CustomerDoesNotExist) <==>
      && CartItemIdsOf(db.cartItems, cartId) != {} && cartId in db.carts
      && forall c :: c in db.customers ==> db.customers[c].userId != userId
    ensures r.Success? <==>
      cartId in db.carts && CartItemIdsOf(db.cartItems, cartId) != {} && CustomerByUser(db.customers, userId).Success?
  {
    match ValidateCartId(db, cartId)
    case Failure(e) => Failure(e)
    case Success(id) => OrderSaved(db, id, userId, now)
  }

  /** A new order under the next id keeps every order constraint. */
  lemma OrdersOkAfterInsert(orders: map<Id, Order>, customers: map<Id, Customer>, next: Id, order: Order)
    requires OrdersOk(orders, customers, next) && order.customer in customers
    ensures OrdersOk(orders[next := order], customers, next + 1)
  {
  }

  /** Lines that point at existing rows and fit the price column keep every order-item constraint. */
  lemma OrderItemsOkAfterInsert(items: map<Id, OrderItem>, orders: map<Id, Order>, orders': map<Id, Order>,
                                products: map<Id, Product>, base: Id, lines: seq<OrderItem>)
    requires OrderItemsOk(items, orders, products, base)
    requires orders.Keys <= orders'.Keys
    requires forall i :: 0 <= i < |lines| ==>
      lines[i].order in orders' && lines[i].product in products && FitsDecimal(lines[i].unitPrice)
    ensures OrderItemsOk(BulkInserted(items, base, lines), orders', products, base + |lines|)
  {
    var r := BulkInserted(items, base, lines);
    forall j | j in r
      ensures j < base + |lines| && r[j].order in orders' && r[j].product in products && FitsDecimal(r[j].unitPrice)
    {
      if j !in items {
        assert r[base + (j - base)] == lines[j - base];
      }
    }
  }

  /** Creating the order and its items keeps every constraint of the store. */
  lemma OrderCreatedConsistent(db: Db, customer: Id, cartId: Id, now: int)
    requires Consistent(db) && customer in db.customers
    ensures Consistent(OrderCreated(db, customer, cartId, now))
  {
    var order := db.nextOrderId;
    var orders := db.orders[order := Order(customer, DefaultPaymentStatus, now)];
    var ks := CartLines(db, cartId);
    var lines := OrderLines(db, order, ks);
    forall i | 0 <= i < |lines|
      ensures lines[i].order in orders && lines[i].product in db.products && FitsDecimal(lines[i].unitPrice)
    {
      assert lines[i] == OrderLine(db, order, ks[i]);
    }
    OrderItemsOkAfterInsert(db.orderItems, db.orders, orders, db.products, db.nextOrderItemId, lines);
    OrdersOkAfterInsert(db.orders, db.customers, order, Order(customer, DefaultPaymentStatus, now));
  }

  /** The order items after `bulk_create`: the old ones, then one per cart line under consecutive ids. */
  lemma OrderCreatedItems(db: Db, customer: Id, cartId: Id, now: int)
    requires Consistent(db) && customer in db.customers
    ensures var d := OrderCreated(db, customer, cartId, now);
      var ks := CartLines(db, cartId);
      var base := db.nextOrderItemId;
      && (forall j :: j in d.orderItems <==> j in db.orderItems || base <= j < base + |ks|)
      && (forall j :: j in db.orderItems ==> d.orderItems[j] == db.orderItems[j])
      && (forall i :: 0 <= i < |ks| ==> d.orderItems[base + i] == OrderLine(db, db.nextOrderId, ks[i]))
  {
    OrderCreatedKeys(db, customer, cartId, now);
    OrderCreatedKeeps(db, customer, cartId, now);
    OrderCreatedLines(db, customer, cartId, now);
  }

  /** `bulk_create` adds exactly the block of ids after the last one in use, one per cart line. */
  lemma OrderCreatedKeys(db: Db, customer: Id, cartId: Id, now: int)
    requires Consistent(db)
    ensures var d := OrderCreated(db, customer, cartId, now);
      forall j :: j in d.orderItems <==> j in db.orderItems || db.nextOrderItemId <= j < db.nextOrderItemId + |CartLines(db, cartId)|
  {
  }

  /** The order items that existed before are left as they were. */
  lemma OrderCreatedKeeps(db: Db, customer: Id, cartId: Id, now: int)
    requires Consistent(db)
    ensures var d := OrderCreated(db, customer, cartId, now);
      forall j :: j in db.orderItems ==> d.orderItems[j] == db.orderItems[j]
  {
  }

  /** The i-th new id holds the order line built from the cart's i-th item. */
  lemma OrderCreatedLines(db: Db, customer: Id, cartId: Id, now: int)
    requires LinesPriced(db, CartLines(db, cartId))
    ensures var d := OrderCreated(db, customer, cartId, now);
      var ks := CartLines(db, cartId);
      forall i :: 0 <= i < |ks| ==> d.orderItems[db.nextOrderItemId + i] == OrderLine(db, db.nextOrderId, ks[i])
  {
    InsertedLinesAt(db, db.orderItems, db.nextOrderItemId, db.nextOrderId, CartLines(db, cartId));
  }

  /** The comprehension's i-th line lands under the i-th inserted id. */
  lemma InsertedLinesAt(db: Db, items: map<Id, OrderItem>, base: Id, order: Id, ks: seq<Id>)
    requires LinesPriced(db, ks)
    ensures var r := BulkInserted(items, base, OrderLines(db, order, ks));
      forall i :: 0 <= i < |ks| ==> r[base + i] == OrderLine(db, order, ks[i])
  {
  }

  /**
   * `save()` when the customer lookup succeeds: the store stays consistent,
   * the new order is the caller's customer's and Pending, its items take
   * the next ids and copy the cart's lines, the cart is deleted with its
   * items, and the other tables are as they were.
   */
  lemma OrderSavedEffect(db: Db, cartId: Id, userId: Id, now: int)
    requires Consistent(db)
    requires OrderSaved(db, cartId, userId, now).Success?
    ensures var p := OrderSaved(db, cartId, userId, now).value;
      var d := p.db;
      var ks := CartLines(db, cartId);
      var base := db.nextOrderItemId;
      && Consistent(d)
      && (UniqueCartLines(db.cartItems) ==> UniqueCartLines(d.cartItems))
      && p.order !in db.orders
      && (exists c :: c in db.customers && db.customers[c].userId == userId &&
            d.orders == db.orders[p.order := Order(c, Pending, now)])
      && (forall j :: j in d.orderItems <==> j in db.orderItems || base <= j < base + |ks|)
      && (forall j :: j in db.orderItems ==> d.orderItems[j] == db.orderItems[j])
      && (forall i :: 0 <= i < |ks| ==> d.orderItems[base + i] == OrderLine(db, p.order, ks[i]))
      && d.carts == CartDeletion(db, cartId).carts
      && d.cartItems == CartDeletion(db, cartId).cartItems
      && d.categories == db.categories && d.products == db.products
      && d.customers == db.customers && d.addresses == db.addresses
  {
    var customer := CustomerByUser(db.customers, userId).value;
    OrderCreatedConsistent(db, customer, cartId, now);
    OrderCreatedItems(db, customer, cartId, now);
    CartDeletionCascades(OrderCreated(db, customer, cartId, now), cartId);
  }

  /**
   * A cart that exists and holds items is placed whenever the caller's user
   * has a customer, as long as users and customers are one to one.
   */
  lemma PlacementSucceeds(db: Db, cartId: Id, userId: Id, now: int)
    requires Consistent(db) && UniqueUsers(db.customers)
    requires cartId in db.carts && CartItemIdsOf(db.cartItems, cartId) != {}
    requires exists c :: c in db.customers && db.customers[c].userId == userId
    ensures OrderPlacement(db, cartId, userId, now).Success?
    ensures OrderPlacement(db, cartId, userId, now).value.order == db.nextOrderId
  {
  }

  /**
   * A successful placement: one new Pending order owned by the caller's
   * customer, its items added under fresh ids, the cart and its items gone,
   * and every other row as it was. Placing the same cart again is refused.
   */
  lemma OrderPlacementEffect(db: Db, cartId: Id, userId: Id, now: int)
    requires Consistent(db)
    requires OrderPlacement(db, cartId, userId, now).Success?
    ensures var p := OrderPlacement(db, cartId, userId, now).value;
      var d := p.db;
      && Consistent(d)
      && p.order !in db.orders
      && (exists c :: c in db.customers && db.customers[c].userId == userId &&
            d.orders == db.orders[p.order := Order(c, Pending, now)])
      && db.orderItems.Keys <= d.orderItems.Keys
      && (forall j :: j in db.orderItems ==> d.orderItems[j] == db.orderItems[j])
      && d.carts == db.carts - {cartId}
      && CartItemIdsOf(d.cartItems, cartId) == {}
      && (forall k :: k in d.cartItems <==> k in db.cartItems && db.cartItems[k].cart != cartId)
      && (forall k :: k in d.cartItems ==> d.cartItems[k] == db.cartItems[k])
      && d.categories == db.categories && d.products == db.products
      && d.customers == db.customers && d.addresses == db.addresses
      && OrderPlacement(d, cartId, userId, now) == Failure(CartDoesNotExist)
  {
    OrderSavedEffect(db, cartId, userId, now);
    CartDeletionCascades(db, cartId);
  }

  /** The ids inserted for one order, when no earlier row belongs to it, are exactly that order's items. */
  lemma InsertedIdsOfOrder(items: map<Id, OrderItem>, base: Id, lines: seq<OrderItem>, order: Id)
    requires forall j :: j in items ==> j < base && items[j].order != order
    requires forall i :: 0 <= i < |lines| ==> lines[i].order == order
    ensures OrderItemIdsOf(BulkInserted(items, base, lines), order) == IdRange(base, |lines|)
  {
    var r := BulkInserted(items, base, lines);
    forall j | j in IdRange(base, |lines|)
      ensures j in OrderItemIdsOf(r, order)
    {
      assert r[base + (j - base)] == lines[j - base];
    }
  }

  /** The new order's items are exactly the ids inserted for it. */
  lemma NewOrderItemIds(db: Db, customer: Id, cartId: Id, now: int)
    requires Consistent(db) && customer in db.customers
    ensures OrderItemIdsOf(OrderCreated(db, customer, cartId, now).orderItems, db.nextOrderId)
      == IdRange(db.nextOrderItemId, |CartLines(db, cartId)|)
  {
    var order := db.nextOrderId;
    var ks := CartLines(db, cartId);
    var lines := OrderLines(db, order, ks);
    forall i | 0 <= i < |lines|
      ensures lines[i].order == order
    {
      assert lines[i] == OrderLine(db, order, ks[i]);
    }
    InsertedIdsOfOrder(db.orderItems, db.nextOrderItemId, lines, order);
  }

  /**
   * The new order's items correspond one to one with the cart's items:
   * they are the block of fresh ids, as many as the cart had lines, and
   * the i-th of them copies the cart's i-th line (in id order) with the
   * product's price at placement time and the new order as its parent.
   */
  /**
   * The order items numbered from `db.nextOrderItemId` carry, line by line,
   * the unit price the products of the cart's items have in `db`.
   */
  predicate PricedAsCart(db: Db, cartId: Id, items: map<Id, OrderItem>)
  {
    var ks := CartLines(db, cartId);
    forall i :: 0 <= i < |ks| ==>
      && db.nextOrderItemId + i in items
      && ks[i] in db.cartItems && db.cartItems[ks[i]].product in db.products
      && items[db.nextOrderItemId + i].unitPrice == db.products[db.cartItems[ks[i]].product].unitPrice
  }

  lemma OrderMirrorsCart(db: Db, cartId: Id, userId: Id, now: int)
    requires Consistent(db)
    requires OrderPlacement(db, cartId, userId, now).Success?
    ensures var p := OrderPlacement(db, cartId, userId, now).value;
      var ks := CartLines(db, cartId);
      var base := db.nextOrderItemId;
      && OrderItemIdsOf(p.db.orderItems, p.order) == IdRange(base, |ks|)
      && |OrderItemIdsOf(p.db.orderItems, p.order)| == |CartItemIdsOf(db.cartItems, cartId)|
      && (forall i :: 0 <= i < |ks| ==> base + i in p.db.orderItems && p.db.orderItems[base + i] == OrderLine(db, p.order, ks[i]))
      && PricedAsCart(db, cartId, p.db.orderItems)
  {
    var customer := CustomerByUser(db.customers, userId).value;
    var c := OrderCreated(db, customer, cartId, now);
    assert OrderPlacement(db, cartId, userId, now).value == Placed(CartDeletion(c, cartId), db.nextOrderId);
    NewOrderItemIds(db, customer, cartId, now);
    OrderCreatedItems(db, customer, cartId, now);
  }

  /** The list comprehension over the cart's items, one order item per cart item. */
  method BuildOrderLines(db: Db, order: Id, ks: seq<Id>) returns (lines: seq<OrderItem>)
    requires LinesPriced(db, ks)
    ensures lines == OrderLines(db, order, ks)
  {
    lines := [];
    var i := 0;
    while i < |ks|
      invariant 0 <= i <= |ks|
      invariant |lines| == i
      invariant forall j :: 0 <= j < i ==> lines[j] == OrderLine(db, order, ks[j])
    {
      var item := db.cartItems[ks[i]];
      lines := lines + [OrderItem(order, item.product, item.quantity, db.products[item.product].unitPrice)];
      i := i + 1;
    }
  }

  /** `Order.objects.create` followed by `OrderItem.objects.bulk_create`. */
  method CreateOrder(store: Store, customer: Id, cartId: Id, now: int) returns (order: Id)
    requires store.Valid() && customer in store.customers
    modifies store
    ensures store.Valid()
    ensures order == old(store.nextOrderId)
    ensures store.Snapshot() == OrderCreated(old(store.Snapshot()), customer, cartId, now)
  {
    var db := store.Snapshot();
    CartLinesPriced(db, cartId);
    var lines := BuildOrderLines(db, db.nextOrderId, CartLines(db, cartId));
    OrderCreatedConsistent(db, customer, cartId, now);
    order := store.InsertOrder(Order(customer, DefaultPaymentStatus, now), lines);
    assert store.Snapshot() == OrderCreated(db, customer, cartId, now);
  }

  /** `AddOrderSerializer.save` on the store. */
  method SaveOrder(store: Store, cartId: Id, userId: Id, now: int) returns (r: Result<Id, OrderError>)
    requires store.Valid()
    modifies store
    ensures store.Valid()
    ensures match OrderSaved(old(store.Snapshot()), cartId, userId, now)
      case Failure(e) => r == Failure(e) && store.Snapshot() == old(store.Snapshot())
      case Success(p) => r == Success(p.order) && store.Snapshot() == p.db
  {
    var customer := CustomerByUser(store.customers, userId);
    if customer.Failure? {
      return Failure(customer.error);
    }
    var order := CreateOrder(store, customer.value, cartId, now);
    store.DeleteCart(cartId);
    r := Success(order);
  }

  /** The POST: `is_valid()` runs `validate_cart_id`, then `save()` runs. */
  method PlaceOrder(store: Store, cartId: Id, userId: Id, now: int) returns (r: Result<Id, OrderError>)
    requires store.Valid()
    modifies store
    ensures store.Valid()
    ensures match OrderPlacement(old(store.Snapshot()), cartId, userId, now)
      case Failure(e) => r == Failure(e) && store.Snapshot() == old(store.Snapshot())
      case Success(p) => r == Success(p.order) && store.Snapshot() == p.db
  {
    var valid := ValidateCartId(store.Snapshot(), cartId);
    if valid.Failure? {
      return Failure(valid.error);
    }
    r := SaveOrder(store, valid.value, userId, now);
  }

  // =====================================================================
  // Cart-item upsert (AddCartItemSerializer)
  // =====================================================================

  /**
   * ProductNotFound and QuantityBelowOne are validation errors; the other
   * two are what the database raises: the insert's foreign-key check, and
   * `CartItem.objects.get` finding several rows (only DoesNotExist is caught).
   */
  datatype CartError = ProductNotFound | QuantityBelowOne | ForeignKeyViolation | MultipleCartItemsReturned

  /**
   * The message `validate_product_id` raises; the quantity field's own
   * message comes from the framework and is not part of this model.
   */
  function CartValidationMessage(e: CartError): Option<string>
  {
    match e
    case ProductNotFound => Some("This product was not found in our database.")
    case _ => None
  }

  /** An unknown product id is refused with `validate_product_id`'s message. */
  lemma ProductIdMessage(db: Db, productId: Id)
    ensures var r := ValidateProductId(db, productId);
      productId !in db.products ==> CartValidationMessage(r.error) == Some("This product was not found in our database.")
  {
  }

  function ValidateProductId(db: Db, productId: Id): (r: Result<Id, CartError>)
    ensures r.Success? <==> productId in db.products
    ensures r.Success? ==> r.value == productId
    ensures r.Failure? ==> r.error == ProductNotFound
  {
    if productId !in db.products then Failure(ProductNotFound) else Success(productId)
  }

  /** The quantity field accepts positive integers only. */
  function ValidateQuantity(quantity: int): (r: Result<nat, CartError>)
    ensures r.Success? <==> quantity >= 1
    ensures r.Success? ==> r.value == quantity
    ensures r.Failure? ==> r.error == QuantityBelowOne
  {
    if quantity < 1 then Failure(QuantityBelowOne) else Success(quantity)
  }

  /** The rows for one (cart, product) pair. */
  function LineIdsOf(items: map<Id, CartItem>, cartId: Id, productId: Id): (r: set<Id>)
    ensures forall k :: k in r <==> k in items && items[k].cart == cartId && items[k].product == productId
  {
    set k | k in items && items[k].cart == cartId && items[k].product == productId
  }

  /** An upsert's result: the database afterwards and the id of the row written. */
  datatype Upserted = Upserted(db: Db, item: Id)

  /** `AddCartItemSerializer.save`: increment the pair's row in place, or insert one. */
  function CartItemSaved(db: Db, cartId: Id, productId: Id, quantity: nat): (r: Result<Upserted, CartError>)
    ensures r.Success? ==>
      && r.value.item in r.value.db.cartItems
      && r.value.db.cartItems[r.value.item].cart == cartId
      && r.value.db.cartItems[r.value.item].product == productId
      && r.value.db.products == db.products
    ensures r == Failure(ForeignKeyViolation) ==> cartId !in db.carts || productId !in db.products
  {
    var ks := SortedIds(LineIdsOf(db.cartItems, cartId, productId));
    if |ks| == 1 then
      var k := ks[0];
      var item := db.cartItems[k];
      Success(Upserted(db.(cartItems := db.cartItems[k := item.(quantity := item.quantity + quantity)]), k))
    else if |ks| > 1 then
      Failure(MultipleCartItemsReturned)
    else if cartId in db.carts && productId in db.products then
      var k := db.nextCartItemId;
      Success(Upserted(db.(cartItems := db.cartItems[k := CartItem(cartId, productId, quantity)],
                           nextCartItemId := k + 1), k))
    else
      Failure(ForeignKeyViolation)
  }

  /** Validation (the product id first, then the quantity) followed by save. */
  function CartItemAdded(db: Db, cartId: Id, productId: Id, quantity: int): (r: Result<Upserted, CartError>)
    ensures productId !in db.products ==> r == Failure(ProductNotFound)
    ensures productId in db.products && quantity < 1 ==> r == Failure(QuantityBelowOne)
    ensures r.Success? ==> productId in db.products && quantity >= 1
  {
    match ValidateProductId(db, productId)
    case Failure(e) => Failure(e)
    case Success(p) =>
      match ValidateQuantity(quantity)
      case Failure(e) => Failure(e)
      case Success(q) => CartItemSaved(db, cartId, p, q)
  }

  /** With one row per pair, a pair that has a row has only that one, and `get` finds it. */
  lemma SingleLine(items: map<Id, CartItem>, cartId: Id, productId: Id, k: Id)
    requires UniqueCartLines(items)
    requires k in LineIdsOf(items, cartId, productId)
    ensures LineIdsOf(items, cartId, productId) == {k}
    ensures SortedIds(LineIdsOf(items, cartId, productId)) == [k]
  {
    var ks := SortedIds(LineIdsOf(items, cartId, productId));
    assert |ks| == 1;
    assert ks[0] in LineIdsOf(items, cartId, productId);
  }

  /**
   * With the pair's row present, its quantity grows by the requested amount
   * and no row is added; without it, exactly one row with the requested
   * quantity is added under a fresh id, or the insert fails when the cart
   * does not exist. Several rows for the pair cannot be found.
   */
  lemma CartItemAddedEffect(db: Db, cartId: Id, productId: Id, quantity: int)
    requires Consistent(db) && UniqueCartLines(db.cartItems)
    requires productId in db.products && quantity >= 1
    ensures var r := CartItemAdded(db, cartId, productId, quantity);
      && r != Failure(MultipleCartItemsReturned)
      && (forall k :: k in LineIdsOf(db.cartItems, cartId, productId) ==>
            r == Success(Upserted(
                   db.(cartItems := db.cartItems[k := db.cartItems[k].(quantity := db.cartItems[k].quantity + quantity)]), k)))
      && (LineIdsOf(db.cartItems, cartId, productId) == {} ==>
            if cartId in db.carts then
              && db.nextCartItemId !in db.cartItems
              && r == Success(Upserted(
                   db.(cartItems := db.cartItems[db.nextCartItemId := CartItem(cartId, productId, quantity)],
                       nextCartItemId := db.nextCartItemId + 1), db.nextCartItemId))
            else r == Failure(ForeignKeyViolation))
  {
    var lines := LineIdsOf(db.cartItems, cartId, productId);
    if lines != {} {
      var k :| k in lines;
      SingleLine(db.cartItems, cartId, productId, k);
    } else {
      assert SortedIds(lines) == [];
      assert db.nextCartItemId !in db.cartItems;
    }
  }

  /**
   * A successful upsert keeps the store's constraints and the
   * one-row-per-pair rule, and changes nothing outside the cart-item table.
   */
  lemma CartItemAddedKeepsInvariants(db: Db, cartId: Id, productId: Id, quantity: int)
    requires Consistent(db) && UniqueCartLines(db.cartItems)
    requires CartItemAdded(db, cartId, productId, quantity).Success?
    ensures var d := CartItemAdded(db, cartId, productId, quantity).value.db;
      && Consistent(d) && UniqueCartLines(d.cartItems)
      && d.(cartItems := db.cartItems, nextCartItemId := db.nextCartItemId) == db
  {
    UpsertWritesOneRow(db, cartId, productId, quantity);
    var u := CartItemAdded(db, cartId, productId, quantity).value;
    var had := if u.item in db.cartItems then db.cartItems[u.item].quantity else 0;
    WriteKeepsUnique(db.cartItems, u.item, CartItem(cartId, productId, had + quantity));
    WriteKeepsCartItemsOk(db.cartItems, db.carts, db.products, db.nextCartItemId, u.db.nextCartItemId,
                          u.item, CartItem(cartId, productId, had + quantity));
  }

  /** Writing the pair's only row, or a first row for a pair that has none, keeps one row per pair. */
  lemma WriteKeepsUnique(items: map<Id, CartItem>, k: Id, item: CartItem)
    requires UniqueCartLines(items)
    requires k in items ==> items[k].cart == item.cart && items[k].product == item.product
    requires k !in items ==> LineIdsOf(items, item.cart, item.product) == {}
    ensures UniqueCartLines(items[k := item])
  {
    var r := items[k := item];
    forall j | j in r && j != k
      ensures r[j] == items[j]
      ensures r[j].cart != item.cart || r[j].product != item.product
    {
    }
  }

  /** A row whose keys resolve and whose quantity is positive may be written under an id below the counter. */
  lemma WriteKeepsCartItemsOk(items: map<Id, CartItem>, carts: map<Id, Cart>, products: map<Id, Product>,
                              next: Id, next': Id, k: Id, item: CartItem)
    requires CartItemsOk(items, carts, products, next)
    requires item.cart in carts && item.product in products && item.quantity >= 1
    requires next <= next' && k < next'
    ensures CartItemsOk(items[k := item], carts, products, next')
  {
  }

  /** Adding q1 and then q2 of a product the cart lacks leaves one row holding q1 + q2. */
  lemma TwoAddsMerge(db: Db, cartId: Id, productId: Id, q1: int, q2: int)
    requires Consistent(db) && UniqueCartLines(db.cartItems)
    requires cartId in db.carts && productId in db.products && q1 >= 1 && q2 >= 1
    requires LineIdsOf(db.cartItems, cartId, productId) == {}
    ensures var r1 := CartItemAdded(db, cartId, productId, q1);
      && r1.Success?
      && var r2 := CartItemAdded(r1.value.db, cartId, productId, q2);
      && r2.Success?
      && r2.value.item == r1.value.item
      && LineIdsOf(r2.value.db.cartItems, cartId, productId) == {r1.value.item}
      && r2.value.db.cartItems[r1.value.item].quantity == q1 + q2
  {
    CartItemAddedEffect(db, cartId, productId, q1);
    CartItemAddedKeepsInvariants(db, cartId, productId, q1);
    var r1 := CartItemAdded(db, cartId, productId, q1);
    var d1 := r1.value.db;
    var k := r1.value.item;
    assert k in LineIdsOf(d1.cartItems, cartId, productId);
    CartItemAddedEffect(d1, cartId, productId, q2);
    var d2 := CartItemAdded(d1, cartId, productId, q2).value.db;
    SingleLine(d1.cartItems, cartId, productId, k);
    assert LineIdsOf(d2.cartItems, cartId, productId) == {k} by {
      forall j | j in LineIdsOf(d2.cartItems, cartId, productId)
        ensures j == k
      {
        assert j in LineIdsOf(d1.cartItems, cartId, productId);
      }
    }
  }

  /** The upsert on the store: validation, then `save()`. */
  method AddCartItem(store: Store, cartId: Id, productId: Id, quantity: int) returns (r: Result<Id, CartError>)
    requires store.Valid()
    modifies store
    ensures store.Valid()
    ensures match CartItemAdded(old(store.Snapshot()), cartId, productId, quantity)
      case Failure(e) => r == Failure(e) && store.Snapshot() == old(store.Snapshot())
      case Success(u) => r == Success(u.item) && store.Snapshot() == u.db
  {
    var p := ValidateProductId(store.Snapshot(), productId);
    if p.Failure? {
      return Failure(p.error);
    }
    var q := ValidateQuantity(quantity);
    if q.Failure? {
      return Failure(q.error);
    }
    r := SaveCartItem(store, cartId, p.value, q.value);
  }

  /** `AddCartItemSerializer.save` on the store; the quantity has passed validation. */
  method SaveCartItem(store: Store, cartId: Id, productId: Id, quantity: nat) returns (r: Result<Id, CartError>)
    requires store.Valid() && quantity >= 1
    modifies store
    ensures store.Valid()
    ensures match CartItemSaved(old(store.Snapshot()), cartId, productId, quantity)
      case Failure(e) => r == Failure(e) && store.Snapshot() == old(store.Snapshot())
      case Success(u) => r == Success(u.item) && store.Snapshot() == u.db
  {
    ghost var db := store.Snapshot();
    var found := SortedIds(LineIdsOf(store.cartItems, cartId, productId));
    if |found| == 1 {
      var k := found[0];
      var item := store.cartItems[k];
      store.cartItems := store.cartItems[k := item.(quantity := item.quantity + quantity)];
      assert store.Snapshot() == CartItemSaved(db, cartId, productId, quantity).value.db;
      return Success(k);
    }
    if |found| > 1 {
      return Failure(MultipleCartItemsReturned);
    }
    if cartId !in store.carts || productId !in store.products {
      return Failure(ForeignKeyViolation);
    }
    var k := store.nextCartItemId;
    store.cartItems := store.cartItems[k := CartItem(cartId, productId, quantity)];
    store.nextCartItemId := k + 1;
    r := Success(k);
  }

  // =====================================================================
  // Totals (CartItemSerializer and CartSerializer)
  // =====================================================================

  /** Every cart item's product is in the product table. */
  predicate Priced(items: map<Id, CartItem>, products: map<Id, Product>)
  {
    forall k :: k in items ==> items[k].product in products
  }

  /** `CartItemSerializer.get_total_price`: quantity times the product's current price. */
  function ItemTotal(item: CartItem, products: map<Id, Product>): (t: int)
    requires item.product in products
    ensures ValidPrice(products[item.product].unitPrice) ==> t >= 0
    ensures item.quantity == 1 ==> t == products[item.product].unitPrice
  {
    item.quantity * products[item.product].unitPrice
  }

  /** The sum of the item totals of the rows `ids`, taken in any order. */
  ghost function TotalOf(ids: set<Id>, items: map<Id, CartItem>, products: map<Id, Product>): int
    requires ids <= items.Keys && Priced(items, products)
    decreases ids
  {
    if ids == {} then 0
    else
      var k :| k in ids;
      ItemTotal(items[k], products) + TotalOf(ids - {k}, items, products)
  }

  /** A cart's total: the sum of its items' totals. */
  ghost function CartTotal(items: map<Id, CartItem>, products: map<Id, Product>, cartId: Id): (t: int)
    requires Priced(items, products)
    ensures CartItemIdsOf(items, cartId) == {} ==> t == 0
  {
    TotalOf(CartItemIdsOf(items, cartId), items, products)
  }

  /** Any item can be taken out first: the sum does not depend on iteration order. */
  lemma {:induction false} TotalOfRemove(ids: set<Id>, k: Id, items: map<Id, CartItem>, products: map<Id, Product>)
    requires ids <= items.Keys && Priced(items, products) && k in ids
    ensures TotalOf(ids, items, products) == ItemTotal(items[k], products) + TotalOf(ids - {k}, items, products)
    decreases ids
  {
    var j :| j in ids && TotalOf(ids, items, products) == ItemTotal(items[j], products) + TotalOf(ids - {j}, items, products);
    if j != k {
      TotalOfRemove(ids - {j}, k, items, products);
      TotalOfRemove(ids - {k}, j, items, products);
      assert ids - {j} - {k} == ids - {k} - {j};
    }
  }

  /** The sum over `ids` depends only on those rows. */
  lemma {:induction false} TotalOfFrame(ids: set<Id>, items: map<Id, CartItem>, items': map<Id, CartItem>, products: map<Id, Product>)
    requires ids <= items.Keys && ids <= items'.Keys
    requires Priced(items, products) && Priced(items', products)
    requires forall k :: k in ids ==> items[k] == items'[k]
    ensures TotalOf(ids, items, products) == TotalOf(ids, items', products)
    decreases ids
  {
    if ids != {} {
      var k :| k in ids;
      TotalOfRemove(ids, k, items, products);
      TotalOfRemove(ids, k, items', products);
      TotalOfFrame(ids - {k}, items, items', products);
    }
  }

  /** Changing rows outside a cart leaves that cart's total as it was. */
  lemma {:induction false} OtherCartTotal(items: map<Id, CartItem>, items': map<Id, CartItem>, products: map<Id, Product>,
                                          k: Id, cartId: Id, other: Id)
    requires Priced(items, products) && Priced(items', products)
    requires items'.Keys == items.Keys + {k} && items'[k].cart == cartId && other != cartId
    requires k in items ==> items[k].cart == cartId
    requires forall j :: j in items && j != k ==> items'[j] == items[j]
    ensures CartTotal(items', products, other) == CartTotal(items, products, other)
  {
    var ids := CartItemIdsOf(items, other);
    assert CartItemIdsOf(items', other) == ids;
    TotalOfFrame(ids, items, items', products);
  }

  /** Raising one row's quantity raises its cart's total by the added units times the price. */
  lemma {:induction false} TotalAfterIncrement(items: map<Id, CartItem>, products: map<Id, Product>, k: Id, quantity: nat)
    requires Priced(items, products) && k in items
    ensures var items' := items[k := items[k].(quantity := items[k].quantity + quantity)];
      && Priced(items', products)
      && CartTotal(items', products, items[k].cart)
         == CartTotal(items, products, items[k].cart) + quantity * products[items[k].product].unitPrice
  {
    var items' := items[k := items[k].(quantity := items[k].quantity + quantity)];
    var ids := CartItemIdsOf(items, items[k].cart);
    assert CartItemIdsOf(items', items[k].cart) == ids;
    TotalOfRemove(ids, k, items, products);
    TotalOfRemove(ids, k, items', products);
    TotalOfFrame(ids - {k}, items, items', products);
    var q0 := items[k].quantity;
    var price := products[items[k].product].unitPrice;
    assert ItemTotal(items'[k], products) == (q0 + quantity) * price;
    Distribute(q0, quantity, price);
  }

  /** Multiplication distributes over addition (kept apart from the proofs that need it). */
  lemma Distribute(a: int, b: int, c: int)
    ensures (a + b) * c == a * c + b * c
  {
  }

  /** A new row adds its own total to its cart's total. */
  lemma {:induction false} TotalAfterInsert(items: map<Id, CartItem>, products: map<Id, Product>, k: Id, item: CartItem)
    requires Priced(items, products) && k !in items && item.product in products
    ensures Priced(items[k := item], products)
    ensures CartTotal(items[k := item], products, item.cart)
            == CartTotal(items, products, item.cart) + ItemTotal(item, products)
  {
    var items' := items[k := item];
    var before := CartItemIdsOf(items, item.cart);
    assert CartItemIdsOf(items', item.cart) - {k} == before;
    TotalOfRemove(CartItemIdsOf(items', item.cart), k, items', products);
    TotalOfFrame(before, items, items', products);
  }

  /**
   * A successful upsert writes exactly one row of the pair, holding the
   * units it had (none for a new row) plus the added ones; the product
   * table is untouched.
   */
  lemma UpsertWritesOneRow(db: Db, cartId: Id, productId: Id, quantity: int)
    requires Consistent(db)
    requires CartItemAdded(db, cartId, productId, quantity).Success?
    ensures var u := CartItemAdded(db, cartId, productId, quantity).value;
      var had := if u.item in db.cartItems then db.cartItems[u.item].quantity else 0;
      && quantity >= 1
      && u.db.products == db.products
      && cartId in db.carts
      && (u.item in db.cartItems ==> db.cartItems[u.item].cart == cartId && db.cartItems[u.item].product == productId)
      && (u.item !in db.cartItems ==> u.item == db.nextCartItemId && LineIdsOf(db.cartItems, cartId, productId) == {})
      && u.db == db.(cartItems := db.cartItems[u.item := CartItem(cartId, productId, had + quantity)],
                     nextCartItemId := if u.item in db.cartItems then db.nextCartItemId else db.nextCartItemId + 1)
  {
    var ks := SortedIds(LineIdsOf(db.cartItems, cartId, productId));
    if |ks| == 1 {
      assert ks[0] in LineIdsOf(db.cartItems, cartId, productId);
    } else {
      assert db.nextCartItemId !in db.cartItems;
    }
  }

  /** A successful upsert of `quantity` units raises the cart's total by exactly `quantity` times the product's price. */
  lemma UpsertRaisesTotal(db: Db, cartId: Id, productId: Id, quantity: int)
    requires Consistent(db) && UniqueCartLines(db.cartItems)
    requires CartItemAdded(db, cartId, productId, quantity).Success?
    ensures var d := CartItemAdded(db, cartId, productId, quantity).value.db;
      && Priced(db.cartItems, db.products) && Priced(d.cartItems, d.products)
      && CartTotal(d.cartItems, d.products, cartId)
         == CartTotal(db.cartItems, db.products, cartId) + quantity * db.products[productId].unitPrice
  {
    UpsertWritesOneRow(db, cartId, productId, quantity);
    var u := CartItemAdded(db, cartId, productId, quantity).value;
    var items, products := db.cartItems, db.products;
    var k := u.item;
    if k in items {
      assert u.db.cartItems == items[k := items[k].(quantity := items[k].quantity + quantity)];
      TotalAfterIncrement(items, products, k, quantity);
    } else {
      assert u.db.cartItems == items[k := CartItem(cartId, productId, quantity)];
      TotalAfterInsert(items, products, k, CartItem(cartId, productId, quantity));
    }
  }

  /** A successful upsert leaves every other cart's total as it was. */
  lemma UpsertKeepsOtherTotals(db: Db, cartId: Id, productId: Id, quantity: int, other: Id)
    requires Consistent(db) && UniqueCartLines(db.cartItems)
    requires CartItemAdded(db, cartId, productId, quantity).Success? && other != cartId
    ensures var d := CartItemAdded(db, cartId, productId, quantity).value.db;
      && Priced(db.cartItems, db.products) && Priced(d.cartItems, d.products)
      && CartTotal(d.cartItems, d.products, other) == CartTotal(db.cartItems, db.products, other)
  {
    UpsertWritesOneRow(db, cartId, productId, quantity);
    var u := CartItemAdded(db, cartId, productId, quantity).value;
    var k := u.item;
    OtherCartTotal(db.cartItems, u.db.cartItems, db.products, k, cartId, other);
  }

  /** `CartSerializer.get_total_price`: accumulate the item totals over the cart's items. */
  method CartTotalPrice(items: map<Id, CartItem>, products: map<Id, Product>, cartId: Id) returns (total: int)
    requires Priced(items, products)
    ensures total == CartTotal(items, products, cartId)
  {
    total := 0;
    var remaining := CartItemIdsOf(items, cartId);
    while remaining != {}
      invariant remaining <= CartItemIdsOf(items, cartId)
      invariant total + TotalOf(remaining, items, products) == CartTotal(items, products, cartId)
      decreases remaining
    {
      var k :| k in remaining;
      TotalOfRemove(remaining, k, items, products);
      total := total + ItemTotal(items[k], products);
      remaining := remaining - {k};
    }
  }
}
