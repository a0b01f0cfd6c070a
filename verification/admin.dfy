/**
 * The product admin: the inventory status column, the inventory list
 * filter and the "Clear Inventory" bulk action.
 */
module Admin {
  import opened Wrappers
  import opened Ids
  import opened Models
  import opened Database

  /** Below this many units a product's inventory is low. */
  const LowInventoryThreshold: nat := 10

  /** The `inventory_status` column. */
  function InventoryStatus(p: Product): (s: string)
    ensures s == "Low" <==> p.inventory < LowInventoryThreshold
    ensures s == "OK" <==> p.inventory >= LowInventoryThreshold
  {
    if p.inventory < LowInventoryThreshold then "Low" else "OK"
  }

  /** The filter's two choices, as they appear in the query string. */
  const LowChoice: string := "<10"
  const OkChoice: string := ">=10"

  /**
   * `InventoryListFilter.queryset`: the products of the queryset below the
   * threshold for "<10", the others for ">=10"; for any other value (or
   * none) it returns nothing, and the change list stays unfiltered.
   */
  function InventoryFilter(value: Option<string>, qs: map<Id, Product>): (r: Option<map<Id, Product>>)
    ensures value == Some(LowChoice) ==>
      && r.Some?
      && (forall k :: k in r.value <==> k in qs && qs[k].inventory < LowInventoryThreshold)
    ensures value == Some(OkChoice) ==>
      && r.Some?
      && (forall k :: k in r.value <==> k in qs && qs[k].inventory >= LowInventoryThreshold)
    ensures value != Some(LowChoice) && value != Some(OkChoice) ==> r == None
    ensures r.Some? ==> forall k :: k in r.value ==> k in qs && r.value[k] == qs[k]
  {
    if value == Some(LowChoice) then
      Some(map k | k in qs && qs[k].inventory < LowInventoryThreshold :: qs[k])
    else if value == Some(OkChoice) then
      Some(map k | k in qs && qs[k].inventory >= LowInventoryThreshold :: qs[k])
    else
      None
  }

  /** The rows the change list shows once the filter has run. */
  function Shown(value: Option<string>, qs: map<Id, Product>): map<Id, Product>
  {
    match InventoryFilter(value, qs)
    case None => qs
    case Some(filtered) => filtered
  }

  /**
   * The two choices split the queryset: every product is shown under
   * exactly one of them, and it is the one its status column names.
   */
  lemma FilterPartitions(qs: map<Id, Product>)
    ensures var low := Shown(Some(LowChoice), qs);
      var ok := Shown(Some(OkChoice), qs);
      && low.Keys !! ok.Keys
      && low.Keys + ok.Keys == qs.Keys
      && (forall k :: k in low ==> InventoryStatus(qs[k]) == "Low")
      && (forall k :: k in ok ==> InventoryStatus(qs[k]) == "OK")
  {
    var low := Shown(Some(LowChoice), qs);
    var ok := Shown(Some(OkChoice), qs);
    assert low.Keys + ok.Keys == qs.Keys by {
      forall k | k in qs
        ensures k in low.Keys + ok.Keys
      {
        if qs[k].inventory < LowInventoryThreshold {
          assert k in low;
        } else {
          assert k in ok;
        }
      }
    }
  }

  /** Any other parameter value shows the whole queryset. */
  lemma UnknownChoiceShowsAll(value: Option<string>, qs: map<Id, Product>)
    requires value != Some(LowChoice) && value != Some(OkChoice)
    ensures Shown(value, qs) == qs
  {
  }

  // ---------------------------------------------------------------------
  // The "Clear Inventory" action
  // ---------------------------------------------------------------------

  /**
   * `queryset.update(inventory=0)`: every selected product that exists gets
   * zero units; `update` bypasses `save`, so `last_updated` is not touched.
   */
  function InventoryCleared(products: map<Id, Product>, selected: set<Id>): (r: map<Id, Product>)
    ensures r.Keys == products.Keys
    ensures forall k :: k in r && k in selected ==> r[k].inventory == 0
    ensures forall k :: k in r && k !in selected ==> r[k] == products[k]
  {
    map k | k in products :: if k in selected then products[k].(inventory := 0) else products[k]
  }

  /**
   * After the action the selected products all show "Low" and hold no
   * units, every other field of theirs is as it was, and the other
   * products are untouched.
   */
  lemma ClearedAreLow(products: map<Id, Product>, selected: set<Id>)
    ensures var r := InventoryCleared(products, selected);
      && r.Keys == products.Keys
      && (forall k :: k in r && k in selected ==>
            r[k].inventory == 0 && InventoryStatus(r[k]) == "Low" && r[k].(inventory := products[k].inventory) == products[k])
      && (forall k :: k in r && k !in selected ==> r[k] == products[k])
  {
  }

  /** Clearing the same selection twice changes nothing the first time did not. */
  lemma ClearIdempotent(products: map<Id, Product>, selected: set<Id>)
    ensures InventoryCleared(InventoryCleared(products, selected), selected) == InventoryCleared(products, selected)
  {
    var once := InventoryCleared(products, selected);
    var twice := InventoryCleared(once, selected);
    forall k | k in twice
      ensures twice[k] == once[k]
    {
    }
  }

  /** Inventory takes part in no constraint, so clearing it keeps the store consistent. */
  lemma ClearKeepsConsistent(db: Db, selected: set<Id>)
    requires Consistent(db)
    ensures Consistent(db.(products := InventoryCleared(db.products, selected)))
  {
    var cleared := InventoryCleared(db.products, selected);
    assert cleared.Keys == db.products.Keys;
    assert forall p :: p in cleared ==> cleared[p].unitPrice == db.products[p].unitPrice && cleared[p].category == db.products[p].category;
  }

  /**
   * `clear_inventory`: one `update` over the selection, which reports the
   * number of rows it matched: the selected products that exist.
   */
  method ClearInventory(store: Store, selected: set<Id>) returns (updated: nat)
    requires store.Valid()
    modifies store
    ensures updated == |selected * old(store.products).Keys|
    ensures store.Snapshot() == old(store.Snapshot()).(products := InventoryCleared(old(store.products), selected))
    ensures store.Valid()
  {
    ClearKeepsConsistent(store.Snapshot(), selected);
    updated := |selected * store.products.Keys|;
    store.products := InventoryCleared(store.products, selected);
  }
}
