/** The database as the views change it in place: one object holding the
    tables, whose methods run the views statement by statement (the
    signals' stock update, the sale and booking loops, the confirmation
    loop with its `get_or_create` lookups). Each method is proved to leave
    the tables exactly as the matching view function of `Purchases`,
    `Sales` or `Deliveries` says, so every lemma proved there holds of it. */
module Store {
  import opened Models
  import Purchases
  import Sales
  import Deliveries

  class Store {
    var items: map<Id, Item>
    var purchases: map<Id, Purchase>
    var customers: seq<Customer>
    var sales: seq<Sale>
    var saleDetails: seq<SaleDetail>
    var deliveries: seq<Delivery>
    var deliveryDetails: seq<DeliveryDetail>
    var nextId: nat

    /** The tables as a value. */
    function State(): Db
      reads this
    {
      Db(items, purchases, customers, sales, saleDetails, deliveries, deliveryDetails, nextId)
    }

    /** An empty database; keys start at 1. */
    constructor ()
      ensures State() == Db(map[], map[], [], [], [], [], [], 1)
      ensures Valid(State())
    {
      items, purchases, customers, sales := map[], map[], [], [];
      saleDetails, deliveries, deliveryDetails, nextId := [], [], [], 1;
    }

    /** Leaving a `transaction.atomic()` block by an exception: every table
        goes back to what it held on entry. */
    method Rollback(saved: Db)
      modifies this
      ensures State() == saved
    {
      items, purchases, customers, sales := saved.items, saved.purchases, saved.customers, saved.sales;
      saleDetails, deliveries := saved.saleDetails, saved.deliveries;
      deliveryDetails, nextId := saved.deliveryDetails, saved.nextId;
    }

    // -------------------------------------------------------------------
    // Purchases

    /** `purchase.save()` with its two signal handlers: `pre_save` caches
        the stored status, the row is written, and `post_save` adds the
        quantity to the item when the purchase is inserted as shipped or
        moves from pending to shipped. */
    method SavePurchase(p: Purchase)
      requires p.item in items
      modifies this
      ensures State() == Purchases.SavePurchase(old(State()), p)
      ensures Valid(old(State())) && p.quantity >= 0 && p.id < old(nextId) ==> Valid(State())
    {
      ghost var before := State();
      var created := p.id !in purchases;
      var oldStatus: Option<PurchaseStatus> := if created then None else Some(purchases[p.id].status);
      purchases := purchases[p.id := p];
      if (created && p.status == Shipped) || (!created && oldStatus == Some(Pending) && p.status == Shipped) {
        var it := items[p.item];
        items := items[p.item := it.(quantity := it.quantity + p.quantity)];
      }
      if Valid(before) && p.quantity >= 0 && p.id < before.nextId {
        Purchases.SaveKeepsValid(before, p);
      }
    }

    /** `PurchaseCreateView.form_valid` and the save it triggers; answers
        the new purchase's key. */
    method CreatePurchase(itemId: Id, quantity: int, now: Timestamp) returns (id: Id)
      requires itemId in items
      modifies this
      ensures id == old(nextId)
      ensures State() == Purchases.CreatePurchase(old(State()), itemId, quantity, now)
    {
      var item := items[itemId];
      var p := Purchase(nextId, itemId, None, quantity, 0.0, None, Pending);
      p := p.(deliveryDate := Some(now), status := Shipped, price := item.purchasePrice);
      if item.vendor.Some? {
        p := p.(vendor := item.vendor);
      }
      id := nextId;
      nextId := nextId + 1;
      SavePurchase(p);
    }

    /** `PurchaseUpdateView.form_valid` on the stored purchase `id` and the
        save it triggers. */
    method UpdatePurchase(id: Id, itemId: Id, quantity: int)
      requires id in purchases && itemId in items
      modifies this
      ensures State() == Purchases.UpdatePurchase(old(State()), id, itemId, quantity)
    {
      var item := items[itemId];
      var p := purchases[id].(id := id, item := itemId, quantity := quantity);
      p := p.(price := item.purchasePrice);
      if p.vendor.None? && item.vendor.Some? {
        p := p.(vendor := item.vendor);
      }
      SavePurchase(p);
    }

    // -------------------------------------------------------------------
    // Sales

    /** The loop of `SaleCreateView` over the payload lines, inside the
        transaction: each line re-reads its item's stock as the loop has
        left it, is refused when the stock is short, and otherwise adds a
        sale line and takes its quantity off. It works on staged copies of
        the stock and the sale lines and answers them, writing nothing. */
    method SellLines(sale: Id, lines: seq<Line>) returns (r: Result<(map<Id, Item>, seq<SaleDetail>)>)
      ensures r == Sales.SaleLines(items, saleDetails, sale, lines)
    {
      var stock: map<Id, Item> := items;
      var written := saleDetails;
      var i := 0;
      while i < |lines|
        invariant 0 <= i <= |lines|
        invariant Sales.SaleLines(items, saleDetails, sale, lines)
                  == Sales.SaleLines(stock, written, sale, lines[i..])
      {
        var l := lines[i];
        assert lines[i..][1..] == lines[i + 1..];
        if !l.Line? {
          return Err(LineMissingFields);
        }
        if l.id !in stock {
          return Err(ItemNotFound);
        }
        var it := stock[l.id];
        if it.quantity < l.quantity {
          return Err(InsufficientStock(it.name));
        }
        written := written + [Sales.DetailFor(sale, l)];
        stock := stock[l.id := it.(quantity := it.quantity - l.quantity)];
        i := i + 1;
      }
      return Ok((stock, written));
    }

    /** `SaleCreateView` on a POSTed payload: the checks before the
        transaction, the line loop, and the commit of the sale, its lines
        and the new stock when every line passes. */
    method CreateSale(req: Sales.SaleRequest, receiptOk: bool) returns (resp: Response)
      modifies this
      ensures resp == Sales.CreateSale(old(State()), req, receiptOk).response
      ensures State() == Sales.CreateSale(old(State()), req, receiptOk).db
      ensures Valid(old(State())) ==> Valid(State())
    {
      ghost var before := State();
      if Valid(before) {
        Sales.CreateSaleKeepsValid(before, req, receiptOk);
      }
      var missing := Sales.FirstMissingField(req);
      if missing.Some? {
        return Failure(400, MissingField(missing.value));
      }
      var customer := Sales.FindCustomer(customers, req.customer.value);
      if customer.None? {
        return Failure(400, CustomerNotFound);
      }
      if req.hasSav.None? {
        return Failure(500, KeyMissing("has_sav"));
      }
      var sale := Sale(nextId, customer.value.id, Sales.SaleFinancials(req), req.hasSav);
      if req.items.value.NotAList? {
        return Failure(400, ItemsNotList);
      }
      resp := SellAndCommit(sale, req.items.value.lines, receiptOk);
    }

    /** The transaction of `SaleCreateView`: the line loop, then the commit. */
    method SellAndCommit(sale: Sale, lines: seq<Line>, receiptOk: bool) returns (resp: Response)
      modifies this
      ensures resp == Sales.SellAndCommit(old(State()), sale, lines, receiptOk).response
      ensures State() == Sales.SellAndCommit(old(State()), sale, lines, receiptOk).db
    {
      var r := SellLines(sale.id, lines);
      if r.Err? {
        return Failure(400, r.error);
      }
      items, sales, saleDetails, nextId := r.value.0, sales + [sale], r.value.1, nextId + 1;
      if !receiptOk {
        return Failure(500, ReceiptFailed);
      }
      return Success;
    }

    // -------------------------------------------------------------------
    // Deliveries

    /** The loop of `DeliveryCreateView` over the payload lines: each line
        is checked against the stock, which the loop never changes, and
        becomes a delivery line; a negative quantity passes the stock check
        and is then refused by the database. Writes nothing. */
    method BookLines(delivery: Id, lines: seq<Line>) returns (r: Result<seq<DeliveryDetail>>)
      ensures r == Deliveries.BookLines(items, deliveryDetails, delivery, lines)
    {
      var written := deliveryDetails;
      var i := 0;
      while i < |lines|
        invariant 0 <= i <= |lines|
        invariant Deliveries.BookLines(items, deliveryDetails, delivery, lines)
                  == Deliveries.BookLines(items, written, delivery, lines[i..])
      {
        var l := lines[i];
        assert lines[i..][1..] == lines[i + 1..];
        if !l.Line? {
          return Err(LineMissingFields);
        }
        if l.id !in items {
          return Err(ItemNotFound);
        }
        if items[l.id].quantity < l.quantity {
          return Err(InsufficientStock(items[l.id].name));
        }
        if l.quantity < 0 {
          return Err(NegativeQuantity);
        }
        written := written + [Deliveries.BookedDetail(delivery, l)];
        i := i + 1;
      }
      return Ok(written);
    }

    /** `DeliveryCreateView` on a POSTed payload: the key checks, the line
        loop, and the commit of the delivery and its lines when every line
        passes. */
    method CreateDelivery(req: Deliveries.DeliveryRequest, receiptOk: bool) returns (resp: Response)
      modifies this
      ensures resp == Deliveries.CreateDelivery(old(State()), req, receiptOk).response
      ensures State() == Deliveries.CreateDelivery(old(State()), req, receiptOk).db
      ensures Valid(old(State())) ==> Valid(State())
    {
      ghost var before := State();
      if Valid(before) {
        Deliveries.CreateDeliveryKeepsValid(before, req, receiptOk);
      }
      var missing := Deliveries.FirstMissingKey(req);
      if missing.Some? {
        return Failure(400, MissingField(missing.value));
      }
      var d := Deliveries.BookedDelivery(nextId, req);
      if req.items.value.NotAList? {
        return Failure(400, ItemsNotList);
      }
      resp := BookAndCommit(d, req.items.value.lines, receiptOk);
    }

    /** The transaction of `DeliveryCreateView`: the line loop, then the commit. */
    method BookAndCommit(d: Delivery, lines: seq<Line>, receiptOk: bool) returns (resp: Response)
      modifies this
      ensures resp == Deliveries.BookAndCommit(old(State()), d, lines, receiptOk).response
      ensures State() == Deliveries.BookAndCommit(old(State()), d, lines, receiptOk).db
    {
      var r := BookLines(d.id, lines);
      if r.Err? {
        return Failure(Deliveries.BookingStatus(r.error), r.error);
      }
      deliveries, deliveryDetails, nextId := deliveries + [d], r.value, nextId + 1;
      if !receiptOk {
        return Failure(500, ReceiptFailed);
      }
      return Success;
    }

    /** `Customer.objects.get_or_create(phone=...)`: a scan of the customers
        for the delivery's phone, then a new customer when none matches.
        Several matches answer an error and write nothing. */
    method GetOrCreateCustomer(d: Delivery) returns (r: Result<Id>)
      modifies this
      ensures var o := Deliveries.GetOrCreateCustomer(old(State()), d);
              && (o.Ok? ==> r == Ok(o.value.0) && State() == o.value.1)
              && (o.Err? ==> r == Err(o.error) && State() == old(State()))
    {
      var found: seq<Customer> := [];
      var i := 0;
      while i < |customers|
        invariant 0 <= i <= |customers|
        invariant unchanged(this)
        invariant found == Deliveries.PhoneMatches(customers[..i], d.phone)
      {
        assert customers[..i + 1] == customers[..i] + [customers[i]];
        Deliveries.PhoneMatchesAppend(customers[..i], customers[i], d.phone);
        if customers[i].phone == d.phone {
          found := found + [customers[i]];
        }
        i := i + 1;
      }
      assert customers[..i] == customers;
      if |found| == 0 {
        var c := Deliveries.NewCustomer(nextId, d);
        customers, nextId := customers + [c], nextId + 1;
        return Ok(c.id);
      } else if |found| == 1 {
        return Ok(found[0].id);
      }
      return Err(MultipleObjects("Customer"));
    }

    /** `Sale.objects.get_or_create(customer=..., <six financial fields>)`:
        a scan of the sales, then a new sale when none matches. */
    method GetOrCreateSale(customer: Id, fin: Financials) returns (r: Result<Id>)
      modifies this
      ensures var o := Deliveries.GetOrCreateSale(old(State()), customer, fin);
              && (o.Ok? ==> r == Ok(o.value.0) && State() == o.value.1)
              && (o.Err? ==> r == Err(o.error) && State() == old(State()))
    {
      var found: seq<Sale> := [];
      var i := 0;
      while i < |sales|
        invariant 0 <= i <= |sales|
        invariant unchanged(this)
        invariant found == Deliveries.SaleMatches(sales[..i], customer, fin)
      {
        assert sales[..i + 1] == sales[..i] + [sales[i]];
        Deliveries.SaleMatchesAppend(sales[..i], sales[i], customer, fin);
        if sales[i].customer == customer && sales[i].fin == fin {
          found := found + [sales[i]];
        }
        i := i + 1;
      }
      assert sales[..i] == sales;
      if |found| == 0 {
        var s := Sale(nextId, customer, fin, None);
        sales, nextId := sales + [s], nextId + 1;
        return Ok(s.id);
      } else if |found| == 1 {
        return Ok(found[0].id);
      }
      return Err(MultipleObjects("Sale"));
    }

    /** The stock step of a confirmation pass: the line re-reads its item,
        is refused when the stock is short, and takes its quantity off. */
    method TakeStock(dd: DeliveryDetail) returns (err: Option<Error>)
      modifies this
      ensures var r := Deliveries.TakeStock(old(State()), dd);
              && (r.Ok? ==> err.None? && State() == r.value)
              && (r.Err? ==> err == Some(r.error) && State() == old(State()))
    {
      if dd.item !in items {
        return Some(ItemNotFound);
      }
      var it := items[dd.item];
      if it.quantity < dd.quantity {
        return Some(InsufficientStock(it.name));
      }
      items := items[dd.item := it.(quantity := it.quantity - dd.quantity)];
      return None;
    }

    /** One pass of the confirmation loop: take the line's quantity off its
        item, find or create the customer and the sale, and copy the line
        into a sale line. On an error the tables may hold the pass's
        partial writes; the caller rolls them back. */
    method ConfirmLine(d: Delivery, dd: DeliveryDetail) returns (err: Option<Error>)
      modifies this
      ensures var r := Deliveries.ConfirmLine(old(State()), d, dd);
              && (r.Ok? ==> err.None? && State() == r.value)
              && (r.Err? ==> err == Some(r.error))
    {
      err := TakeStock(dd);
      if err.Some? {
        return;
      }
      var c := GetOrCreateCustomer(d);
      if c.Err? {
        return Some(c.error);
      }
      var s := GetOrCreateSale(c.value, d.fin);
      if s.Err? {
        return Some(s.error);
      }
      saleDetails := saleDetails + [Deliveries.CopyDetail(s.value, dd)];
      return None;
    }

    /** The loop of `update_delivery_status` over the delivery's lines,
        inside the transaction. On an error the tables may hold the partial
        writes of the loop; the caller rolls them back. */
    method ConfirmLines(d: Delivery, dds: seq<DeliveryDetail>) returns (err: Option<Error>)
      modifies this
      ensures var r := Deliveries.ConfirmDetails(old(State()), d, dds);
              && (r.Ok? ==> err.None? && State() == r.value)
              && (r.Err? ==> err == Some(r.error))
    {
      var i := 0;
      while i < |dds|
        invariant 0 <= i <= |dds|
        invariant Deliveries.ConfirmDetails(old(State()), d, dds) == Deliveries.ConfirmDetails(State(), d, dds[i..])
      {
        assert dds[i..][1..] == dds[i + 1..];
        err := ConfirmLine(d, dds[i]);
        if err.Some? {
          return;
        }
        i := i + 1;
      }
      return None;
    }

    /** `update_delivery_status`: the delivery is marked delivered and its
        lines confirmed one by one inside a transaction; any failure, the
        receipt's included, rolls every write back. */
    method ConfirmDelivery(id: Id, receiptOk: bool) returns (resp: Response)
      modifies this
      ensures resp == Deliveries.ConfirmDelivery(old(State()), id, receiptOk).response
      ensures State() == Deliveries.ConfirmDelivery(old(State()), id, receiptOk).db
      ensures Valid(old(State())) ==> Valid(State())
    {
      var saved := State();
      if Valid(saved) {
        Deliveries.ConfirmKeepsValid(saved, id, receiptOk);
      }
      var found := Deliveries.FindDelivery(deliveries, id);
      if found.None? {
        return Failure(404, DeliveryNotFound);
      }
      var d := found.value;
      if d.status == Delivered {
        return Failure(400, AlreadyDelivered);
      }
      var dds := DetailsOf(deliveryDetails, d.id);
      deliveries := Deliveries.MarkDelivered(deliveries, id);
      var err := ConfirmLines(d.(status := Delivered), dds);
      if err.Some? {
        Rollback(saved);
        return Failure(Deliveries.ConfirmStatus(err.value), err.value);
      }
      if !receiptOk {
        Rollback(saved);
        return Failure(500, ReceiptFailed);
      }
      return Success;
    }
  }
}
