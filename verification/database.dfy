/**
 * The database as the running program sees it: one mutable table per
 * model, updated in place by the serializers, views and admin actions,
 * plus the ORM's `delete()` on single rows.
 */
module Database {
  import opened Wrappers
  import opened Ids
  import opened Models

  /**
   * `bulk_create`: the lines get consecutive ids from the sequence's next
   * value, which lies above every id already in use.
   */
  function BulkInserted(items: map<Id, OrderItem>, base: Id, lines: seq<OrderItem>): (r: map<Id, OrderItem>)
    ensures forall k :: k in r <==> k in items || base <= k < base + |lines|
    ensures forall j :: j in items && j < base ==> r[j] == items[j]
    ensures forall i :: 0 <= i < |lines| ==> r[base + i] == lines[i]
    decreases |lines|
  {
    if lines == [] then items
    else
      BulkInserted(items[base := lines[0]], base + 1, lines[1..])
  }

  class Store {
    var categories: map<Id, Category>
    var products: map<Id, Product>
    var customers: map<Id, Customer>
    var addresses: map<Id, Address>
    var orders: map<Id, Order>
    var orderItems: map<Id, OrderItem>
    var carts: map<Id, Cart>
    var cartItems: map<Id, CartItem>
    var nextOrderId: Id
    var nextOrderItemId: Id
    var nextCartItemId: Id

    /** The current contents of every table. */
    function Snapshot(): Db
      reads this
    {
      Db(categories, products, customers, addresses, orders, orderItems, carts, cartItems,
         nextOrderId, nextOrderItemId, nextCartItemId)
    }

    predicate Valid()
      reads this
    {
      Consistent(Snapshot())
    }

    /**
     * `Order.objects.create` followed by `OrderItem.objects.bulk_create`:
     * the order takes the next value of its id sequence, and the lines the
     * next values of theirs, in order.
     */
    method InsertOrder(o: Order, lines: seq<OrderItem>) returns (id: Id)
      modifies this
      ensures id == old(nextOrderId)
      ensures Snapshot() == old(Snapshot()).(
        orders := old(orders)[id := o],
        nextOrderId := id + 1,
        orderItems := BulkInserted(old(orderItems), old(nextOrderItemId), lines),
        nextOrderItemId := old(nextOrderItemId) + |lines|)
    {
      id := nextOrderId;
      orders := orders[id := o];
      nextOrderId := id + 1;
      orderItems := BulkInserted(orderItems, nextOrderItemId, lines);
      nextOrderItemId := nextOrderItemId + |lines|;
    }

    /** `Cart.objects.filter(pk=cart).delete()`: the cart and, by cascade, its items. */
    method DeleteCart(cart: Id)
      requires Valid()
      modifies this
      ensures Snapshot() == CartDeletion(old(Snapshot()), cart)
      ensures Valid()
    {
      CartDeletionCascades(Snapshot(), cart);
      cartItems := map k | k in cartItems && cartItems[k].cart != cart :: cartItems[k];
      carts := carts - {cart};
    }

    /** `product.delete()`: refused under PROTECT, else the featured-product links are nulled. */
    method DeleteProduct(p: Id) returns (r: Outcome<ProtectedError>)
      requires Valid()
      modifies this
      ensures match ProductDeletion(old(Snapshot()), p)
        case Failure(e) => r == Fail(e) && Snapshot() == old(Snapshot())
        case Success(d) => r == Pass && Snapshot() == d
      ensures Valid()
    {
      if (exists k :: k in orderItems && orderItems[k].product == p)
         || (exists k :: k in cartItems && cartItems[k].product == p)
      {
        return Fail(ProtectedError);
      }
      ProductDeletionEffect(Snapshot(), p);
      categories := map c | c in categories ::
        if categories[c].featuredProduct == Some(p)
        then categories[c].(featuredProduct := None)
        else categories[c];
      products := products - {p};
      r := Pass;
    }

    /** `category.delete()`: refused under PROTECT while a product is in it. */
    method DeleteCategory(c: Id) returns (r: Outcome<ProtectedError>)
      requires Valid()
      modifies this
      ensures match CategoryDeletion(old(Snapshot()), c)
        case Failure(e) => r == Fail(e) && Snapshot() == old(Snapshot())
        case Success(d) => r == Pass && Snapshot() == d
      ensures Valid()
    {
      if exists q :: q in products && products[q].category == c {
        return Fail(ProtectedError);
      }
      CategoryDeletionEffect(Snapshot(), c);
      categories := categories - {c};
      r := Pass;
    }
  }
}
