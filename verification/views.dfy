/**
 * The function-based API views for products and categories: the 404 on a
 * missing row, the ascending-id category listing, and the DELETE guards
 * that answer 405 while a row is still referred to.
 */
module Views {
  import opened Wrappers
  import opened Ids
  import opened Models
  import opened Database

  /** The HTTP answers these views give. */
  datatype Response<T> =
    | Ok(body: T)
    | NoContent
    | NotFound
    | MethodNotAllowed(error: string)
    | ServerError

  function StatusCode<T>(r: Response<T>): int
  {
    match r
    case Ok(_) => 200
    case NoContent => 204
    case NotFound => 404
    case MethodNotAllowed(_) => 405
    case ServerError => 500
  }

  const ProductOrderedMessage: string := "Product has been ordered before and hence, cannot be deleted"
  const CategoryInUseMessage: string := "Category has been assigned to some products and hence, cannot be deleted"

  /** `get_object_or_404` on the primary key. */
  function GetOr404<T>(table: map<Id, T>, id: Id): (r: Response<T>)
    ensures r == NotFound <==> id !in table
    ensures r != NotFound ==> r == Ok(table[id])
  {
    if id in table then Ok(table[id]) else NotFound
  }

  /** GET on a product: the row, or 404. */
  function ProductDetail(db: Db, id: Id): (r: Response<Product>)
    ensures StatusCode(r) == 404 <==> id !in db.products
    ensures StatusCode(r) == 200 <==> id in db.products
    ensures r.Ok? ==> r.body == db.products[id]
  {
    GetOr404(db.products, id)
  }

  /** GET on a category: the row, or 404. */
  function CategoryDetail(db: Db, pk: Id): (r: Response<Category>)
    ensures StatusCode(r) == 404 <==> pk !in db.categories
    ensures StatusCode(r) == 200 <==> pk in db.categories
    ensures r.Ok? ==> r.body == db.categories[pk]
  {
    GetOr404(db.categories, pk)
  }

  /** One listed row: its id and its contents. */
  datatype Row<T> = Row(id: Id, row: T)

  /** GET on the category list: every category, ordered by id. */
  function CategoryList(db: Db): (r: seq<Row<Category>>)
    ensures |r| == |db.categories|
    ensures forall i :: 0 <= i < |r| ==> r[i].id in db.categories && r[i].row == db.categories[r[i].id]
    ensures forall c :: c in db.categories ==> exists i :: 0 <= i < |r| && r[i].id == c
  {
    var ks := SortedIds(db.categories.Keys);
    var r := seq(|ks|, i requires 0 <= i < |ks| => Row(ks[i], db.categories[ks[i]]));
    assert forall c :: c in db.categories ==> exists i :: 0 <= i < |r| && r[i].id == c by {
      forall c | c in db.categories
        ensures exists i :: 0 <= i < |r| && r[i].id == c
      {
        assert c in ks;
        var i :| 0 <= i < |ks| && ks[i] == c;
        assert r[i].id == c;
      }
    }
    r
  }

  /** The listing is strictly increasing in id, so no category appears twice. */
  lemma CategoryListAscending(db: Db)
    ensures var r := CategoryList(db);
      forall i, j :: 0 <= i < j < |r| ==> r[i].id < r[j].id
  {
    var ks := SortedIds(db.categories.Keys);
    SortedIdsAscending(db.categories.Keys);
    var r := CategoryList(db);
    forall i, j | 0 <= i < j < |r|
      ensures r[i].id < r[j].id
    {
      assert r[i].id == ks[i] && r[j].id == ks[j];
    }
  }

  // ---------------------------------------------------------------------
  // DELETE
  // ---------------------------------------------------------------------

  /** What a request did: the answer, and the database afterwards. */
  datatype Handled = Handled(response: Response<()>, db: Db)

  /**
   * DELETE on a product: 404 if missing, 405 once an order item refers to
   * it, otherwise `product.delete()`; a cart item still holding the product
   * makes that raise ProtectedError, which reaches the client as a 500.
   */
  function ProductDeleted(db: Db, id: Id): (h: Handled)
    ensures h.response == NotFound <==> id !in db.products
    ensures h.response.MethodNotAllowed? <==> id in db.products && OrderedProduct(db, id)
    ensures h.response != NoContent ==> h.db == db
  {
    if id !in db.products then Handled(NotFound, db)
    else if OrderedProduct(db, id) then Handled(MethodNotAllowed(ProductOrderedMessage), db)
    else
      match ProductDeletion(db, id)
      case Failure(_) => Handled(ServerError, db)
      case Success(d) => Handled(NoContent, d)
  }

  /**
   * The product view's answers partition the requests: 404 exactly when the
   * product is missing, 405 exactly when it has been ordered, 500 exactly
   * when it sits only in carts, 204 otherwise; only a 204 changes the
   * store, and then the product is gone, the constraints still hold and
   * no table other than the products and the categories (whose featured
   * links to it are nulled) has changed.
   */
  lemma ProductDeleteOutcome(db: Db, id: Id)
    requires Consistent(db)
    ensures var h := ProductDeleted(db, id);
      && (StatusCode(h.response) == 404 <==> id !in db.products)
      && (StatusCode(h.response) == 405 <==> id in db.products && OrderedProduct(db, id))
      && (h.response.MethodNotAllowed? ==> h.response.error == ProductOrderedMessage)
      && (StatusCode(h.response) == 500 <==> id in db.products && !OrderedProduct(db, id) && CartedProduct(db, id))
      && (StatusCode(h.response) == 204 <==> id in db.products && !OrderedProduct(db, id) && !CartedProduct(db, id))
      && (h.response != NoContent ==> h.db == db)
      && (h.response == NoContent ==>
            && Consistent(h.db)
            && h.db.products == db.products - {id}
            && ProductDeletion(db, id) == Success(h.db)
            && h.db.categories.Keys == db.categories.Keys
            && (forall c :: c in db.categories && db.categories[c].featuredProduct == Some(id) ==>
                  h.db.categories[c] == db.categories[c].(featuredProduct := None))
            && (forall c :: c in db.categories && db.categories[c].featuredProduct != Some(id) ==>
                  h.db.categories[c] == db.categories[c])
            && h.db.(products := db.products, categories := db.categories) == db)
  {
    if id in db.products && !OrderedProduct(db, id) && !CartedProduct(db, id) {
      ProductDeletionEffect(db, id);
    }
  }

  /** A product DELETE never touches the order items, whatever it answers. */
  lemma ProductDeleteKeepsOrderItems(db: Db, id: Id)
    ensures ProductDeleted(db, id).db.orderItems == db.orderItems
  {
  }

  /** A product that has been ordered is never removed through the view. */
  lemma OrderedProductSurvives(db: Db, id: Id)
    requires Consistent(db) && OrderedProduct(db, id)
    ensures var h := ProductDeleted(db, id);
      && h.db == db
      && (id in db.products ==> StatusCode(h.response) == 405)
  {
    ProductDeleteOutcome(db, id);
  }

  /** A second DELETE of the same product answers 404. */
  lemma ProductDeleteTwice(db: Db, id: Id)
    requires Consistent(db)
    requires ProductDeleted(db, id).response == NoContent
    ensures ProductDeleted(ProductDeleted(db, id).db, id).response == NotFound
  {
    ProductDeleteOutcome(db, id);
  }

  /** The `product` view's DELETE branch on the store. */
  method ProductDelete(store: Store, id: Id) returns (resp: Response<()>)
    requires store.Valid()
    modifies store
    ensures resp == ProductDeleted(old(store.Snapshot()), id).response
    ensures store.Snapshot() == ProductDeleted(old(store.Snapshot()), id).db
    ensures store.Valid()
  {
    if id !in store.products {
      return NotFound;
    }
    if exists k :: k in store.orderItems && store.orderItems[k].product == id {
      return MethodNotAllowed(ProductOrderedMessage);
    }
    var outcome := store.DeleteProduct(id);
    resp := if outcome.Pass? then NoContent else ServerError;
  }

  /**
   * DELETE on a category: 404 if missing, 405 while a product is in it,
   * otherwise `category.delete()`, which then cannot meet a PROTECT.
   */
  function CategoryDeleted(db: Db, pk: Id): (h: Handled)
    ensures h.response == NotFound <==> pk !in db.categories
    ensures h.response.MethodNotAllowed? <==> pk in db.categories && CategoryInUse(db, pk)
    ensures h.response != NoContent ==> h.db == db
  {
    if pk !in db.categories then Handled(NotFound, db)
    else if CategoryInUse(db, pk) then Handled(MethodNotAllowed(CategoryInUseMessage), db)
    else Handled(NoContent, CategoryDeletion(db, pk).value)
  }

  /**
   * The category view's answers: 404 exactly when the category is missing,
   * 405 exactly when a product is in it, 204 otherwise, after which the
   * category is gone, the constraints still hold and nothing else has
   * changed. A 500 cannot happen.
   */
  lemma CategoryDeleteOutcome(db: Db, pk: Id)
    requires Consistent(db)
    ensures var h := CategoryDeleted(db, pk);
      && (StatusCode(h.response) == 404 <==> pk !in db.categories)
      && (StatusCode(h.response) == 405 <==> pk in db.categories && CategoryInUse(db, pk))
      && (h.response.MethodNotAllowed? ==> h.response.error == CategoryInUseMessage)
      && (StatusCode(h.response) == 204 <==> pk in db.categories && !CategoryInUse(db, pk))
      && StatusCode(h.response) != 500
      && (h.response != NoContent ==> h.db == db)
      && (h.response == NoContent ==>
            && Consistent(h.db)
            && h.db.categories == db.categories - {pk}
            && h.db.(categories := db.categories) == db)
  {
    if pk in db.categories && !CategoryInUse(db, pk) {
      CategoryDeletionEffect(db, pk);
    }
  }

  /** The `category` view's DELETE branch on the store. */
  method CategoryDelete(store: Store, pk: Id) returns (resp: Response<()>)
    requires store.Valid()
    modifies store
    ensures resp == CategoryDeleted(old(store.Snapshot()), pk).response
    ensures store.Snapshot() == CategoryDeleted(old(store.Snapshot()), pk).db
    ensures store.Valid()
  {
    if pk !in store.categories {
      return NotFound;
    }
    if exists q :: q in store.products && store.products[q].category == pk {
      return MethodNotAllowed(CategoryInUseMessage);
    }
    var outcome := store.DeleteCategory(pk);
    resp := NoContent;
  }
}
