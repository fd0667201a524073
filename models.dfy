/** The records of the store and of its transactions app, the database
    snapshot they live in, and the model-level rules of store/models.py:
    field defaults, `Delivery.sum_products`, `Item.to_json` and the
    `on_delete` behaviour of the two foreign keys of `DeliveryDetail`. */
module Models {

  datatype Option<T> = None | Some(value: T) {
    function GetOr(default: T): T {
      if Some? then value else default
    }
  }

  /** Primary keys. */
  type Id = nat

  /** Money amounts are only ever copied between records, never computed on. */
  type Money = real

  /** Dates and timestamps are copied, never inspected. */
  type Timestamp = int

  /** An inventory item; `category` stands for the name of its category. */
  datatype Item = Item(
    id: Id,
    name: string,
    description: string,
    category: string,
    quantity: int,
    price: Money,
    purchasePrice: Money,
    expiringDate: Option<Timestamp>,
    vendor: Option<Id>)

  datatype Customer = Customer(id: Id, firstName: string, lastName: string, address: string, phone: string)

  /** The financial snapshot shared by sales and deliveries. */
  datatype Financials = Financials(
    subTotal: Money,
    grandTotal: Money,
    taxAmount: Money,
    taxPercentage: Money,
    amountPaid: Money,
    amountChange: Money)

  /** A sale; `hasSav` is None when the column kept its model default. */
  datatype Sale = Sale(id: Id, customer: Id, fin: Financials, hasSav: Option<bool>)

  datatype SaleDetail = SaleDetail(sale: Id, item: Id, price: Money, quantity: int, totalDetail: Money)

  /** The two `DELIVERY_STATUS_CHOICES`. */
  datatype DeliveryStatus = NotDelivered | Delivered

  /** The default of `Delivery.status`. */
  const DefaultDeliveryStatus: DeliveryStatus := NotDelivered

  datatype Delivery = Delivery(
    id: Id,
    customerName: string,
    phone: string,
    location: string,
    deliveryDate: Timestamp,
    status: DeliveryStatus,
    fin: Financials)

  datatype DeliveryDetail = DeliveryDetail(delivery: Id, item: Id, price: Money, quantity: int, totalDetail: Money)

  /** `Purchase.delivery_status`: 'P' (pending) or 'S' (shipped / received). */
  datatype PurchaseStatus = Pending | Shipped

  datatype Purchase = Purchase(
    id: Id,
    item: Id,
    vendor: Option<Id>,
    quantity: int,
    price: Money,
    deliveryDate: Option<Timestamp>,
    status: PurchaseStatus)

  /** A snapshot of the tables the reconciliation touches; `nextId` is the
      next primary key the database hands out. */
  datatype Db = Db(
    items: map<Id, Item>,
    purchases: map<Id, Purchase>,
    customers: seq<Customer>,
    sales: seq<Sale>,
    saleDetails: seq<SaleDetail>,
    deliveries: seq<Delivery>,
    deliveryDetails: seq<DeliveryDetail>,
    nextId: nat)

  /** No two different rows of `rows` share the key `id` of `key`. */
  ghost predicate KeysUnique<T>(rows: seq<T>, key: T -> Id) {
    forall a <- rows, b <- rows :: key(a) == key(b) ==> a == b
  }

  /** The store invariant: no item's stock is negative, no delivery line
      holds a negative quantity (a `PositiveIntegerField`), every key in
      use was handed out before `nextId`, every row of a keyed table is
      stored under its own id, and no two customers, sales or deliveries
      share an id. */
  ghost predicate Valid(db: Db) {
    && (forall k <- db.items :: db.items[k].quantity >= 0 && db.items[k].id == k)
    && (forall k <- db.purchases :: k < db.nextId && db.purchases[k].id == k)
    && KeysUnique(db.customers, (c: Customer) => c.id)
    && KeysUnique(db.sales, (s: Sale) => s.id)
    && KeysUnique(db.deliveries, (d: Delivery) => d.id)
    && (forall c <- db.customers :: c.id < db.nextId)
    && (forall s <- db.sales :: s.id < db.nextId && s.customer < db.nextId)
    && (forall sd <- db.saleDetails :: sd.sale < db.nextId)
    && (forall d <- db.deliveries :: d.id < db.nextId)
    && (forall dd <- db.deliveryDetails :: dd.quantity >= 0 && dd.delivery < db.nextId)
  }

  /** What every view returns: the JSON envelope's status, with the HTTP
      status code and the failure that produced it. */
  datatype Error =
    | MissingField(field: string)        // ValueError: a required key is absent
    | ItemsNotList                       // ValueError: `items` is not a list
    | LineMissingFields                  // ValueError: a line lacks id/price/quantity/total_item
    | InsufficientStock(itemName: string) // ValueError naming the item
    | CustomerNotFound                   // Customer.DoesNotExist
    | ItemNotFound                       // Item.DoesNotExist
    | DeliveryNotFound                   // Delivery.DoesNotExist
    | AlreadyDelivered
    | KeyMissing(key: string)            // KeyError, caught by the catch-all handler
    | NegativeQuantity                   // the database refuses a negative PositiveIntegerField
    | MultipleObjects(model: string)     // get_or_create matched several rows
    | ReceiptFailed                      // generate_pdf raised
    | ItemReferenced                     // IntegrityError: a delivery line still names the item

  datatype Result<T> = Ok(value: T) | Err(error: Error)

  datatype Response = Success | Failure(status: int, error: Error)

  datatype Outcome = Outcome(response: Response, db: Db)

  /** One entry of the `items` list of a sale or delivery payload: either it
      carries all of `id`, `price`, `quantity` and `total_item`, or it lacks
      at least one of them (which of them does not matter to either view). */
  datatype Line =
    | Line(id: Id, price: Money, quantity: int, totalItem: Money)
    | Incomplete

  /** The `items` value of a payload: a list of lines, or anything else. */
  datatype LinesField = NotAList | List(lines: seq<Line>)

  /** The total quantity the complete lines request of item `x`. */
  function LineSum(lines: seq<Line>, x: Id): int {
    if lines == [] then 0
    else (if lines[0].Line? && lines[0].id == x then lines[0].quantity else 0)
         + LineSum(lines[1..], x)
  }

  /** A fresh `Item()` with the model's defaults: no stock, zero prices. */
  function NewItem(id: Id, name: string, description: string, category: string, vendor: Option<Id>): (it: Item)
    ensures it.quantity == 0 && it.price == 0.0 && it.purchasePrice == 0.0
    ensures it.id == id && it.name == name && it.category == category && it.vendor == vendor
  {
    Item(id, name, description, category, 0, 0.0, 0.0, None, vendor)
  }

  /** Saving a fresh item keeps the store invariant. */
  lemma AddNewItemKeepsValid(db: Db, name: string, description: string, category: string, vendor: Option<Id>)
    requires Valid(db)
    ensures var it := NewItem(db.nextId, name, description, category, vendor);
            Valid(db.(items := db.items[it.id := it], nextId := db.nextId + 1))
  {
  }

  /** The rows of `deliverydetail_set` for delivery `id`, in table order. */
  function DetailsOf(details: seq<DeliveryDetail>, id: Id): (r: seq<DeliveryDetail>)
    ensures forall dd <- r :: dd in details && dd.delivery == id
    ensures forall dd <- details :: dd.delivery == id ==> dd in r
  {
    if details == [] then []
    else (if details[0].delivery == id then [details[0]] else []) + DetailsOf(details[1..], id)
  }

  function QuantitySum(details: seq<DeliveryDetail>): int {
    if details == [] then 0 else details[0].quantity + QuantitySum(details[1..])
  }

  /** `Delivery.sum_products`: the total quantity over the delivery's lines. */
  function SumProducts(db: Db, delivery: Delivery): int {
    QuantitySum(DetailsOf(db.deliveryDetails, delivery.id))
  }

  lemma {:induction false} QuantitySumAppend(a: seq<DeliveryDetail>, b: seq<DeliveryDetail>)
    ensures QuantitySum(a + b) == QuantitySum(a) + QuantitySum(b)
  {
    if a != [] {
      assert (a + b)[1..] == a[1..] + b;
      QuantitySumAppend(a[1..], b);
    } else {
      assert a + b == b;
    }
  }

  lemma {:induction false} DetailsOfAppend(a: seq<DeliveryDetail>, b: seq<DeliveryDetail>, id: Id)
    ensures DetailsOf(a + b, id) == DetailsOf(a, id) + DetailsOf(b, id)
  {
    if a != [] {
      assert (a + b)[1..] == a[1..] + b;
      DetailsOfAppend(a[1..], b, id);
    } else {
      assert a + b == b;
    }
  }

  lemma {:induction false} QuantitySumNonNegative(details: seq<DeliveryDetail>)
    requires forall dd <- details :: dd.quantity >= 0
    ensures QuantitySum(details) >= 0
  {
    if details != [] {
      QuantitySumNonNegative(details[1..]);
    }
  }

  /** `sum_products` is never negative in a valid store, and is 0 for a
      delivery that has no lines. */
  lemma SumProductsBounds(db: Db, delivery: Delivery)
    requires Valid(db)
    ensures SumProducts(db, delivery) >= 0
    ensures DetailsOf(db.deliveryDetails, delivery.id) == [] ==> SumProducts(db, delivery) == 0
  {
    QuantitySumNonNegative(DetailsOf(db.deliveryDetails, delivery.id));
  }

  /** The dictionary `Item.to_json` builds for the item picker. */
  datatype ItemJson = ItemJson(
    id: Id,
    name: string,
    description: string,
    category: string,
    quantity: int,
    price: Money,
    purchasePrice: Money,
    expiringDate: Option<Timestamp>,
    vendor: Option<Id>,
    text: string,
    totalProduct: int)

  /** `to_json`: the item's fields, with `text` = name, the category's name,
      and a picker line of one unit (`quantity` 1, `total_product` 0) that
      does not reflect the stock. */
  function ToJson(it: Item): (j: ItemJson)
    ensures j.quantity == 1 && j.totalProduct == 0
    ensures j.id == it.id && j.text == it.name && j.name == it.name && j.category == it.category
    ensures j.price == it.price && j.purchasePrice == it.purchasePrice && j.vendor == it.vendor
  {
    ItemJson(it.id, it.name, it.description, it.category, 1, it.price, it.purchasePrice,
             it.expiringDate, it.vendor, it.name, 0)
  }

  /** Two items that differ only in their stock serialise identically. */
  lemma ToJsonIgnoresStock(a: Item, q: int)
    ensures ToJson(a.(quantity := q)) == ToJson(a)
  {
  }

  function WithoutDelivery(ds: seq<Delivery>, id: Id): (r: seq<Delivery>)
    ensures forall d <- r :: d in ds && d.id != id
    ensures forall d <- ds :: d.id != id ==> d in r
  {
    if ds == [] then []
    else (if ds[0].id == id then [] else [ds[0]]) + WithoutDelivery(ds[1..], id)
  }

  function WithoutDetailsOf(details: seq<DeliveryDetail>, id: Id): (r: seq<DeliveryDetail>)
    ensures forall dd <- r :: dd in details && dd.delivery != id
    ensures forall dd <- details :: dd.delivery != id ==> dd in r
  {
    if details == [] then []
    else (if details[0].delivery == id then [] else [details[0]]) + WithoutDetailsOf(details[1..], id)
  }

  /** Deleting a delivery cascades to its lines (`on_delete=CASCADE`) and
      leaves every stock level, every other delivery and every other table
      alone. */
  function DeleteDelivery(db: Db, id: Id): (r: Db)
    ensures r.items == db.items
    ensures forall d <- r.deliveries :: d.id != id
    ensures forall d <- r.deliveries :: d in db.deliveries
    ensures forall d <- db.deliveries :: d.id != id ==> d in r.deliveries
    ensures r.customers == db.customers && r.sales == db.sales && r.saleDetails == db.saleDetails
    ensures r.purchases == db.purchases && r.nextId == db.nextId
    ensures DetailsOf(r.deliveryDetails, id) == []
    ensures forall dd <- db.deliveryDetails :: dd.delivery != id ==> dd in r.deliveryDetails
    ensures forall dd <- r.deliveryDetails :: dd in db.deliveryDetails
  {
    var r := db.(deliveries := WithoutDelivery(db.deliveries, id),
                 deliveryDetails := WithoutDetailsOf(db.deliveryDetails, id));
    NoDetailsLeft(r.deliveryDetails, id);
    r
  }

  lemma {:induction false} NoDetailsLeft(details: seq<DeliveryDetail>, id: Id)
    requires forall dd <- details :: dd.delivery != id
    ensures DetailsOf(details, id) == []
  {
    if details != [] {
      NoDetailsLeft(details[1..], id);
    }
  }

  /** Whether some delivery line names item `id`. */
  predicate Referenced(details: seq<DeliveryDetail>, id: Id) {
    exists dd <- details :: dd.item == id
  }

  /** Deleting an item. `on_delete=DO_NOTHING` makes Django leave the
      delivery lines alone, so the foreign-key constraint of the line table
      refuses the deletion while a line still names the item. Otherwise
      only that item goes and no other table changes. */
  function DeleteItem(db: Db, id: Id): (r: Result<Db>)
    ensures r.Err? <==> Referenced(db.deliveryDetails, id)
    ensures r.Err? ==> r.error == ItemReferenced
    ensures r.Ok? ==> r.value.items.Keys == db.items.Keys - {id}
    ensures r.Ok? ==> forall k <- r.value.items :: r.value.items[k] == db.items[k]
    ensures r.Ok? ==> r.value.(items := db.items) == db
  {
    if Referenced(db.deliveryDetails, id) then Err(ItemReferenced)
    else Ok(db.(items := db.items - {id}))
  }

  /** Both deletions keep the store invariant, and a successful item
      deletion leaves no delivery line naming a missing item that named a
      present one before. */
  lemma DeletesKeepValid(db: Db, id: Id)
    requires Valid(db)
    ensures Valid(DeleteDelivery(db, id))
    ensures DeleteItem(db, id).Ok? ==> Valid(DeleteItem(db, id).value)
    ensures DeleteItem(db, id).Ok? ==>
              forall dd <- db.deliveryDetails :: dd.item in db.items ==> dd.item in DeleteItem(db, id).value.items
  {
  }
}
