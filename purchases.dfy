/** Purchase reconciliation: the `pre_save` / `post_save` pair of
    transactions/signals.py that adds a purchase's quantity to its item's
    stock exactly once, when its delivery status first becomes shipped
    ('S'), and the field defaults the purchase create / update views set
    before saving. */
module Purchases {
  import opened Models

  /** `_cache_old_delivery_status`: the status stored before this save, or
      None for a purchase that is being inserted. */
  function OldStatus(db: Db, p: Purchase): (r: Option<PurchaseStatus>)
    ensures r.None? <==> p.id !in db.purchases
    ensures p.id in db.purchases ==> r == Some(db.purchases[p.id].status)
  {
    if p.id in db.purchases then Some(db.purchases[p.id].status) else None
  }

  /** The condition under which `update_item_quantity` adds to the stock:
      inserted as shipped, or updated from pending to shipped. */
  predicate Receives(created: bool, before: Option<PurchaseStatus>, after: PurchaseStatus) {
    (created && after == Shipped) || (!created && before == Some(Pending) && after == Shipped)
  }

  function AddStock(items: map<Id, Item>, id: Id, q: int): map<Id, Item>
    requires id in items
  {
    items[id := items[id].(quantity := items[id].quantity + q)]
  }

  /** Saving a purchase: the row is stored, and the purchase's item gains the
      purchase quantity when `Receives` holds. */
  function SavePurchase(db: Db, p: Purchase): Db
    requires p.item in db.items
  {
    var before := OldStatus(db, p);
    var created := p.id !in db.purchases;
    var stored := db.(purchases := db.purchases[p.id := p]);
    if Receives(created, before, p.status) then stored.(items := AddStock(db.items, p.item, p.quantity))
    else stored
  }

  /** Inserting a shipped purchase adds exactly its quantity to its item. */
  lemma CreateShippedAddsStock(db: Db, p: Purchase)
    requires p.item in db.items && p.id !in db.purchases && p.status == Shipped
    ensures var r := SavePurchase(db, p);
            p.item in r.items && r.items[p.item].quantity == db.items[p.item].quantity + p.quantity
  {
  }

  /** Inserting a pending purchase leaves every stock level as it was. */
  lemma CreatePendingKeepsStock(db: Db, p: Purchase)
    requires p.item in db.items && p.id !in db.purchases && p.status == Pending
    ensures SavePurchase(db, p).items == db.items
  {
  }

  /** Updating a stored pending purchase to shipped adds its quantity. */
  lemma PendingToShippedAddsStock(db: Db, p: Purchase)
    requires p.item in db.items && p.id in db.purchases
    requires db.purchases[p.id].status == Pending && p.status == Shipped
    ensures var r := SavePurchase(db, p);
            p.item in r.items && r.items[p.item].quantity == db.items[p.item].quantity + p.quantity
  {
  }

  /** Every other update (shipped to shipped, shipped to pending, pending to
      pending) leaves every stock level as it was. */
  lemma OtherUpdatesKeepStock(db: Db, p: Purchase)
    requires p.item in db.items && p.id in db.purchases
    requires !(db.purchases[p.id].status == Pending && p.status == Shipped)
    ensures SavePurchase(db, p).items == db.items
  {
  }

  /** Saving the same purchase twice counts it at most once: the second save
      never changes the stock. */
  lemma SaveTwiceCountsOnce(db: Db, p: Purchase)
    requires p.item in db.items
    ensures var r := SavePurchase(db, p);
            p.item in r.items && SavePurchase(r, p).items == r.items
  {
  }

  /** Inserting as pending and then updating to shipped ends with the same
      stock as inserting as shipped. */
  lemma PendingThenShippedMatchesShipped(db: Db, p: Purchase)
    requires p.item in db.items && p.id !in db.purchases
    ensures var pending := SavePurchase(db, p.(status := Pending));
            p.item in pending.items
            && SavePurchase(pending, p.(status := Shipped)) == SavePurchase(db, p.(status := Shipped))
  {
  }

  /** Only the purchase's own item is touched; every other row of the items
      table is unchanged, and the purchase is stored. */
  lemma SaveTouchesOnlyOwnItem(db: Db, p: Purchase)
    requires p.item in db.items
    ensures var r := SavePurchase(db, p);
            && r.items.Keys == db.items.Keys
            && (forall k <- db.items :: k != p.item ==> r.items[k] == db.items[k])
            && r.items[p.item].(quantity := db.items[p.item].quantity) == db.items[p.item]
            && r.purchases == db.purchases[p.id := p]
  {
  }

  /** A save with a non-negative quantity under a key the database handed
      out keeps the store invariant. */
  lemma SaveKeepsValid(db: Db, p: Purchase)
    requires Valid(db) && p.item in db.items
    requires p.quantity >= 0 && p.id < db.nextId
    ensures Valid(SavePurchase(db, p))
  {
  }

  /** `PurchaseCreateView.form_valid`. `PurchaseForm` edits only `item`
      and `quantity`; the view then dates the new purchase today, marks it
      shipped ('S'), prices it at the item's purchase price and gives it
      the item's vendor when the item has one (an unset vendor stays null). */
  function PrepareCreate(id: Id, itemId: Id, quantity: int, item: Item, now: Timestamp): (p: Purchase)
    ensures p.id == id && p.item == itemId && p.quantity == quantity
    ensures p.status == Shipped && p.deliveryDate == Some(now) && p.price == item.purchasePrice
    ensures p.vendor == item.vendor
  {
    var unsaved := Purchase(id, itemId, None, quantity, 0.0, None, Pending);
    var p := unsaved.(deliveryDate := Some(now), status := Shipped, price := item.purchasePrice);
    if item.vendor.Some? then p.(vendor := item.vendor) else p
  }

  /** `PurchaseUpdateView.form_valid`. The form replaces only `item` and
      `quantity` of the stored purchase; the view re-prices it from the
      item and fills in the item's vendor only when the stored one is
      empty. Status and delivery date stay the stored ones. */
  function PrepareUpdate(stored: Purchase, itemId: Id, quantity: int, item: Item): (p: Purchase)
    ensures p.id == stored.id && p.item == itemId && p.quantity == quantity
    ensures p.status == stored.status && p.deliveryDate == stored.deliveryDate
    ensures p.price == item.purchasePrice
    ensures stored.vendor.Some? ==> p.vendor == stored.vendor
    ensures stored.vendor.None? ==> p.vendor == item.vendor
  {
    var p := stored.(item := itemId, quantity := quantity, price := item.purchasePrice);
    if p.vendor.None? && item.vendor.Some? then p.(vendor := item.vendor) else p
  }

  /** Creating a purchase through the view: a fresh key, the view's
      defaults, then the signals. The form's choice field only accepts an
      existing item. */
  function CreatePurchase(db: Db, itemId: Id, quantity: int, now: Timestamp): Db
    requires itemId in db.items
  {
    var p := PrepareCreate(db.nextId, itemId, quantity, db.items[itemId], now);
    SavePurchase(db.(nextId := db.nextId + 1), p)
  }

  /** Updating purchase `id` through the view (`get_object` finds it): the
      form's item and quantity on the stored row, the view's defaults, then
      the signals. */
  function UpdatePurchase(db: Db, id: Id, itemId: Id, quantity: int): Db
    requires id in db.purchases && itemId in db.items
  {
    SavePurchase(db, PrepareUpdate(db.purchases[id].(id := id), itemId, quantity, db.items[itemId]))
  }

  /** A purchase created through the view is always received at once: its
      item gains exactly the purchase quantity, at the item's purchase
      price, and the store invariant is kept for a non-negative quantity. */
  lemma CreateViaViewAddsStock(db: Db, itemId: Id, quantity: int, now: Timestamp)
    requires Valid(db) && itemId in db.items
    ensures var r := CreatePurchase(db, itemId, quantity, now);
            && itemId in r.items
            && r.items[itemId].quantity == db.items[itemId].quantity + quantity
            && (forall k <- db.items :: k != itemId ==> k in r.items && r.items[k] == db.items[k])
            && db.nextId in r.purchases
            && r.purchases[db.nextId].price == db.items[itemId].purchasePrice
            && r.purchases[db.nextId].status == Shipped
            && (quantity >= 0 ==> Valid(r))
  {
    assert db.nextId !in db.purchases;
  }

  /** The update view never moves stock: the form cannot change the
      status, so the signal sees no pending-to-shipped step, whatever the
      new item or quantity. The stored status, date and a vendor already
      set are kept, and the invariant holds for a non-negative quantity. */
  lemma UpdateViaViewKeepsStock(db: Db, id: Id, itemId: Id, quantity: int)
    requires id in db.purchases && itemId in db.items
    ensures var r := UpdatePurchase(db, id, itemId, quantity);
            && r.items == db.items
            && id in r.purchases
            && r.purchases[id].item == itemId && r.purchases[id].quantity == quantity
            && r.purchases[id].status == db.purchases[id].status
            && r.purchases[id].deliveryDate == db.purchases[id].deliveryDate
            && (db.purchases[id].vendor.Some? ==> r.purchases[id].vendor == db.purchases[id].vendor)
            && (forall k <- db.purchases :: k != id ==> k in r.purchases && r.purchases[k] == db.purchases[k])
            && (Valid(db) && quantity >= 0 ==> Valid(r))
  {
  }
}
