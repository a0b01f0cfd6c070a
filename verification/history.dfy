/**
 * What later requests do to a placed order: the operations of the views
 * and the admin that change products leave its items and their prices
 * as they were when it was placed.
 */
module OrderHistory {
  import opened Ids
  import opened Models
  import opened Serializers
  import opened Views
  import opened Admin

  /** The state after an admin clears the inventory of `selected` and a client then deletes product `deleted`. */
  function LaterState(d: Db, selected: set<Id>, deleted: Id): Db
  {
    ProductDeleted(d.(products := InventoryCleared(d.products, selected)), deleted).db
  }

  /** Clearing inventory and deleting a product leave every order item, with its unit price, as it was. */
  lemma LaterChangesKeepOrderItems(d: Db, selected: set<Id>, deleted: Id)
    ensures LaterState(d, selected, deleted).orderItems == d.orderItems
  {
    ProductDeleteKeepsOrderItems(d.(products := InventoryCleared(d.products, selected)), deleted);
  }

  /**
   * The prices of a placed order are copies: after the admin clears the
   * inventory of any selection and a DELETE is then made on any product
   * (which is refused for an ordered one), the order's items still carry
   * the prices the products had when the order was placed.
   */
  lemma PriceSnapshot(db: Db, cartId: Id, userId: Id, now: int, selected: set<Id>, deleted: Id)
    requires Consistent(db)
    requires OrderPlacement(db, cartId, userId, now).Success?
    ensures PricedAsCart(db, cartId, LaterState(OrderPlacement(db, cartId, userId, now).value.db, selected, deleted).orderItems)
  {
    LaterChangesKeepOrderItems(OrderPlacement(db, cartId, userId, now).value.db, selected, deleted);
    OrderMirrorsCart(db, cartId, userId, now);
  }
}
