/**
 * The shop's tables (store/models.py): record types, field bounds, choice
 * enums with their defaults, the integrity constraints the schema declares,
 * and what the ORM does when a row is deleted under each declared
 * on_delete policy (PROTECT, CASCADE, SET_NULL).
 */
module Models {
  import opened Wrappers
  import opened Ids

  // ---------------------------------------------------------------------
  // Money: DecimalField(max_digits=10, decimal_places=2) held as cents.
  // ---------------------------------------------------------------------

  const MaxDigits: nat := 10
  const DecimalPlaces: nat := 2

  /** 10^10: the first amount of cents that needs an eleventh digit. */
  const PriceBound: int := 10_000_000_000

  function Pow10(n: nat): (p: nat)
    ensures p >= 1
  {
    if n == 0 then 1 else 10 * Pow10(n - 1)
  }

  /** The number of decimal digits of `n` (0 has one digit). */
  function DigitCount(n: nat): (d: nat)
    ensures d >= 1
  {
    if n < 10 then 1 else 1 + DigitCount(n / 10)
  }

  lemma {:induction false} DigitCountBelow(n: nat, k: nat)
    requires k >= 1
    ensures n < Pow10(k) <==> DigitCount(n) <= k
  {
    var p := Pow10(k - 1);
    assert Pow10(k) == 10 * p;
    if n < 10 {
      assert n < Pow10(k);
    } else if k == 1 {
      assert DigitCount(n) == 1 + DigitCount(n / 10);
    } else {
      DigitCountBelow(n / 10, k - 1);
      assert n < 10 * p <==> n / 10 < p;
    }
  }

  /** A product's unit price: non-negative and at most ten digits of cents. */
  predicate ValidPrice(cents: int)
  {
    0 <= cents < PriceBound
  }

  /** An order item's unit price: at most ten digits, no sign restriction. */
  predicate FitsDecimal(cents: int)
  {
    -PriceBound < cents < PriceBound
  }

  lemma PriceHasTenDigits(cents: int)
    ensures ValidPrice(cents) <==> cents >= 0 && DigitCount(cents) <= MaxDigits
  {
    assert Pow10(MaxDigits) == PriceBound by {
      assert Pow10(2) == 100;
      assert Pow10(4) == 10_000;
      assert Pow10(6) == 1_000_000;
      assert Pow10(8) == 100_000_000;
    }
    if cents >= 0 {
      DigitCountBelow(cents, MaxDigits);
    }
  }

  /**
   * With two of the ten digits after the decimal point, a valid price has
   * at most eight digits of whole units: at most 99999999.99.
   */
  lemma PriceWholeUnits(cents: int)
    ensures ValidPrice(cents) <==>
      cents >= 0 && cents / Pow10(DecimalPlaces) < Pow10(MaxDigits - DecimalPlaces)
  {
    assert Pow10(DecimalPlaces) == 100;
    assert Pow10(MaxDigits - DecimalPlaces) == 100_000_000 by {
      assert Pow10(2) == 100;
      assert Pow10(4) == 10_000;
      assert Pow10(6) == 1_000_000;
      assert Pow10(8) == 100_000_000;
    }
  }

  // ---------------------------------------------------------------------
  // Choice enums
  // ---------------------------------------------------------------------

  datatype Membership = Bronze | Silver | Gold

  const DefaultMembership: Membership := Bronze

  /** The stored one-letter code of a membership tier. */
  function MembershipCode(m: Membership): (c: char)
    ensures c == 'B' || c == 'S' || c == 'G'
  {
    match m
    case Bronze => 'B'
    case Silver => 'S'
    case Gold => 'G'
  }

  /** The tier a stored code denotes; only B, S and G are choices. */
  function MembershipChoice(c: char): (r: Option<Membership>)
    ensures r.Some? <==> c == 'B' || c == 'S' || c == 'G'
    ensures r.Some? ==> MembershipCode(r.value) == c
  {
    if c == 'B' then Some(Bronze)
    else if c == 'S' then Some(Silver)
    else if c == 'G' then Some(Gold)
    else None
  }

  /** Storing a tier and reading it back gives the same tier. */
  lemma MembershipRoundTrip(m: Membership)
    ensures MembershipChoice(MembershipCode(m)) == Some(m)
  {
  }

  datatype PaymentStatus = Pending | Complete | Failed

  const DefaultPaymentStatus: PaymentStatus := Pending

  function PaymentStatusCode(s: PaymentStatus): (c: char)
    ensures c == 'P' || c == 'C' || c == 'F'
  {
    match s
    case Pending => 'P'
    case Complete => 'C'
    case Failed => 'F'
  }

  /** The status a stored code denotes; only P, C and F are choices. */
  function PaymentStatusChoice(c: char): (r: Option<PaymentStatus>)
    ensures r.Some? <==> c == 'P' || c == 'C' || c == 'F'
    ensures r.Some? ==> PaymentStatusCode(r.value) == c
  {
    if c == 'P' then Some(Pending)
    else if c == 'C' then Some(Complete)
    else if c == 'F' then Some(Failed)
    else None
  }

  lemma PaymentStatusRoundTrip(s: PaymentStatus)
    ensures PaymentStatusChoice(PaymentStatusCode(s)) == Some(s)
  {
  }

  /** A new customer is stored as Bronze ('B') and a new order as Pending ('P'). */
  lemma StoredDefaults()
    ensures MembershipCode(DefaultMembership) == 'B'
    ensures PaymentStatusCode(DefaultPaymentStatus) == 'P'
  {
  }

  // ---------------------------------------------------------------------
  // Records (one per table; the row's id is the key of its table)
  // ---------------------------------------------------------------------

  datatype Category = Category(title: string, featuredProduct: Option<Id>)

  datatype Product = Product(
    title: string,
    slug: string,
    unitPrice: int,
    inventory: nat,
    category: Id,
    lastUpdated: int)

  datatype Customer = Customer(
    userId: Id,
    firstName: string,
    lastName: string,
    membership: Membership)

  datatype Order = Order(customer: Id, paymentStatus: PaymentStatus, placedAt: int)

  datatype OrderItem = OrderItem(order: Id, product: Id, quantity: nat, unitPrice: int)

  datatype Address = Address(street: string, city: string, customer: Id, zip: Option<nat>)

  datatype Cart = Cart(createdAt: int)

  datatype CartItem = CartItem(cart: Id, product: Id, quantity: nat)

  /**
   * The database: one map per table, and the next id each auto-increment
   * sequence hands out for the tables rows are inserted into.
   */
  datatype Db = Db(
    categories: map<Id, Category>,
    products: map<Id, Product>,
    customers: map<Id, Customer>,
    addresses: map<Id, Address>,
    orders: map<Id, Order>,
    orderItems: map<Id, OrderItem>,
    carts: map<Id, Cart>,
    cartItems: map<Id, CartItem>,
    nextOrderId: Id,
    nextOrderItemId: Id,
    nextCartItemId: Id)

  // ---------------------------------------------------------------------
  // Integrity constraints
  // ---------------------------------------------------------------------

  predicate ProductsOk(products: map<Id, Product>, categories: map<Id, Category>)
  {
    forall p :: p in products ==> ValidPrice(products[p].unitPrice) && products[p].category in categories
  }

  predicate CategoriesOk(categories: map<Id, Category>, products: map<Id, Product>)
  {
    forall c :: c in categories && categories[c].featuredProduct.Some? ==>
      categories[c].featuredProduct.value in products
  }

  /** Customer to user is one-to-one: no two customers share a user. */
  predicate UniqueUsers(customers: map<Id, Customer>)
  {
    forall a, b :: a in customers && b in customers && customers[a].userId == customers[b].userId ==> a == b
  }

  predicate AddressesOk(addresses: map<Id, Address>, customers: map<Id, Customer>)
  {
    forall a :: a in addresses ==> addresses[a].customer in customers
  }

  predicate OrdersOk(orders: map<Id, Order>, customers: map<Id, Customer>, nextOrderId: Id)
  {
    forall o :: o in orders ==> o < nextOrderId && orders[o].customer in customers
  }

  predicate OrderItemsOk(orderItems: map<Id, OrderItem>, orders: map<Id, Order>, products: map<Id, Product>, nextOrderItemId: Id)
  {
    forall i :: i in orderItems ==>
      && i < nextOrderItemId
      && orderItems[i].order in orders
      && orderItems[i].product in products
      && FitsDecimal(orderItems[i].unitPrice)
  }

  predicate CartItemsOk(cartItems: map<Id, CartItem>, carts: map<Id, Cart>, products: map<Id, Product>, nextCartItemId: Id)
  {
    forall i :: i in cartItems ==>
      && i < nextCartItemId
      && cartItems[i].cart in carts
      && cartItems[i].product in products
      && cartItems[i].quantity >= 1
  }

  /** At most one cart item per (cart, product) pair. */
  predicate UniqueCartLines(items: map<Id, CartItem>)
  {
    forall i, j :: i in items && j in items && items[i].cart == items[j].cart && items[i].product == items[j].product ==> i == j
  }

  /**
   * Every foreign key points at an existing row and every field is within
   * its declared bounds. The one-to-one customer/user link and the
   * one-row-per-(cart, product) rule are not declared in the schema; they
   * are the separate invariants UniqueUsers and UniqueCartLines.
   */
  predicate Consistent(db: Db)
  {
    && ProductsOk(db.products, db.categories)
    && CategoriesOk(db.categories, db.products)
    && AddressesOk(db.addresses, db.customers)
    && OrdersOk(db.orders, db.customers, db.nextOrderId)
    && OrderItemsOk(db.orderItems, db.orders, db.products, db.nextOrderItemId)
    && CartItemsOk(db.cartItems, db.carts, db.products, db.nextCartItemId)
  }

  // ---------------------------------------------------------------------
  // Reverse relations
  // ---------------------------------------------------------------------

  /** The items of a cart (reverse of CartItem.cart). */
  function CartItemIdsOf(items: map<Id, CartItem>, cart: Id): (r: set<Id>)
    ensures forall k :: k in r <==> k in items && items[k].cart == cart
  {
    set k | k in items && items[k].cart == cart
  }

  /** The items of an order (reverse of OrderItem.order). */
  function OrderItemIdsOf(items: map<Id, OrderItem>, order: Id): (r: set<Id>)
    ensures forall k :: k in r <==> k in items && items[k].order == order
  {
    set k | k in items && items[k].order == order
  }

  predicate OrderedProduct(db: Db, p: Id)
  {
    exists k :: k in db.orderItems && db.orderItems[k].product == p
  }

  predicate CartedProduct(db: Db, p: Id)
  {
    exists k :: k in db.cartItems && db.cartItems[k].product == p
  }

  predicate CategoryInUse(db: Db, c: Id)
  {
    exists p :: p in db.products && db.products[p].category == c
  }

  // ---------------------------------------------------------------------
  // Deletion under the declared on_delete policies
  // ---------------------------------------------------------------------

  /** Django's ProtectedError: a PROTECT foreign key still refers to the row. */
  datatype ProtectedError = ProtectedError

  /** Deleting a cart cascades to its items (CartItem.cart is CASCADE). */
  function CartDeletion(db: Db, cart: Id): (d: Db)
    ensures cart !in d.carts
    ensures forall k :: k in d.cartItems ==> d.cartItems[k].cart != cart
  {
    db.(carts := db.carts - {cart},
        cartItems := map k | k in db.cartItems && db.cartItems[k].cart != cart :: db.cartItems[k])
  }

  lemma CartDeletionCascades(db: Db, cart: Id)
    requires Consistent(db)
    ensures var d := CartDeletion(db, cart);
      && Consistent(d)
      && (UniqueCartLines(db.cartItems) ==> UniqueCartLines(d.cartItems))
      && cart !in d.carts
      && CartItemIdsOf(d.cartItems, cart) == {}
      && d.carts.Keys == db.carts.Keys - {cart}
      && (forall c :: c in d.carts ==> d.carts[c] == db.carts[c])
      && (forall k :: k in d.cartItems <==> k in db.cartItems && db.cartItems[k].cart != cart)
      && (forall k :: k in d.cartItems ==> d.cartItems[k] == db.cartItems[k])
      && d.(carts := db.carts, cartItems := db.cartItems) == db
  {
  }

  /**
   * Deleting a product: refused while an order item or a cart item refers
   * to it (both PROTECT); otherwise every category featuring it has its
   * featured product set to null (SET_NULL).
   */
  function ProductDeletion(db: Db, p: Id): (r: Result<Db, ProtectedError>)
    ensures r.Failure? <==> OrderedProduct(db, p) || CartedProduct(db, p)
  {
    if OrderedProduct(db, p) || CartedProduct(db, p) then Failure(ProtectedError)
    else
      Success(db.(
        products := db.products - {p},
        categories := map c | c in db.categories ::
          if db.categories[c].featuredProduct == Some(p)
          then db.categories[c].(featuredProduct := None)
          else db.categories[c]))
  }

  lemma ProductDeletionEffect(db: Db, p: Id)
    requires Consistent(db)
    requires ProductDeletion(db, p).Success?
    ensures var d := ProductDeletion(db, p).value;
      && Consistent(d)
      && d.products == db.products - {p}
      && d.categories.Keys == db.categories.Keys
      && (forall c :: c in d.categories ==> d.categories[c].title == db.categories[c].title)
      && (forall c :: c in d.categories ==> d.categories[c].featuredProduct != Some(p))
      && (forall c :: c in db.categories && db.categories[c].featuredProduct == Some(p) ==>
            d.categories[c] == db.categories[c].(featuredProduct := None))
      && (forall c :: c in d.categories && db.categories[c].featuredProduct != Some(p) ==> d.categories[c] == db.categories[c])
      && d.(products := db.products, categories := db.categories) == db
  {
    var d := ProductDeletion(db, p).value;
    forall q | q in d.products
      ensures d.products[q].category in d.categories
    {
      assert q in db.products;
    }
  }

  /** Deleting a category: refused while a product refers to it (PROTECT). */
  function CategoryDeletion(db: Db, c: Id): (r: Result<Db, ProtectedError>)
    ensures r.Failure? <==> CategoryInUse(db, c)
  {
    if CategoryInUse(db, c) then Failure(ProtectedError)
    else Success(db.(categories := db.categories - {c}))
  }

  lemma CategoryDeletionEffect(db: Db, c: Id)
    requires Consistent(db)
    requires CategoryDeletion(db, c).Success?
    ensures var d := CategoryDeletion(db, c).value;
      && Consistent(d)
      && d.categories == db.categories - {c}
      && d.(categories := db.categories) == db
  {
  }

  /** Deleting an order: refused while it has order items (OrderItem.order is PROTECT). */
  function OrderDeletion(db: Db, o: Id): (r: Result<Db, ProtectedError>)
    ensures r.Failure? <==> OrderItemIdsOf(db.orderItems, o) != {}
  {
    if OrderItemIdsOf(db.orderItems, o) != {} then Failure(ProtectedError)
    else Success(db.(orders := db.orders - {o}))
  }

  lemma OrderDeletionEffect(db: Db, o: Id)
    requires Consistent(db)
    requires OrderDeletion(db, o).Success?
    ensures var d := OrderDeletion(db, o).value;
      && Consistent(d)
      && d.orders == db.orders - {o}
      && d.(orders := db.orders) == db
  {
    var d := OrderDeletion(db, o).value;
    forall i | i in d.orderItems
      ensures d.orderItems[i].order in d.orders
    {
      assert i !in OrderItemIdsOf(db.orderItems, o);
    }
  }

  /**
   * Deleting a customer: refused while they have orders (Order.customer is
   * PROTECT); otherwise their addresses go with them (Address.customer is
   * CASCADE).
   */
  function CustomerDeletion(db: Db, c: Id): (r: Result<Db, ProtectedError>)
    ensures r.Failure? <==> exists o :: o in db.orders && db.orders[o].customer == c
  {
    if exists o :: o in db.orders && db.orders[o].customer == c then Failure(ProtectedError)
    else
      Success(db.(
        customers := db.customers - {c},
        addresses := map a | a in db.addresses && db.addresses[a].customer != c :: db.addresses[a]))
  }

  lemma CustomerDeletionEffect(db: Db, c: Id)
    requires Consistent(db)
    requires CustomerDeletion(db, c).Success?
    ensures var d := CustomerDeletion(db, c).value;
      && Consistent(d)
      && (UniqueUsers(db.customers) ==> UniqueUsers(d.customers))
      && d.customers == db.customers - {c}
      && (forall a :: a in d.addresses <==> a in db.addresses && db.addresses[a].customer != c)
      && (forall a :: a in d.addresses ==> d.addresses[a] == db.addresses[a] && d.addresses[a].customer != c)
      && d.(customers := db.customers, addresses := db.addresses) == db
  {
  }
}
