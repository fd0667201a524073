/** Sale creation (`SaleCreateView`): validate the payload, then, inside one
    transaction, create the sale and, line by line, check the item's current
    stock, create a sale line and take the quantity off the stock. Any
    failure before the commit leaves the database as it was. */
module Sales {
  import opened Models

  datatype SaleRequest = SaleRequest(
    customer: Option<Id>,
    subTotal: Option<Money>,
    grandTotal: Option<Money>,
    taxAmount: Option<Money>,
    taxPercentage: Option<Money>,
    amountPaid: Option<Money>,
    amountChange: Option<Money>,
    hasSav: Option<bool>,
    items: Option<LinesField>)

  /** All six keys the view insists on are present. */
  predicate HasRequiredFields(req: SaleRequest) {
    && req.customer.Some? && req.subTotal.Some? && req.grandTotal.Some?
    && req.amountPaid.Some? && req.amountChange.Some? && req.items.Some?
  }

  /** The keys the view insists on, in the order it checks them. */
  const RequiredFields: seq<string> := ["customer", "sub_total", "grand_total", "amount_paid", "amount_change", "items"]

  /** Whether the payload carries the required key `k`. */
  predicate HasField(req: SaleRequest, k: string) {
    match k
    case "customer" => req.customer.Some?
    case "sub_total" => req.subTotal.Some?
    case "grand_total" => req.grandTotal.Some?
    case "amount_paid" => req.amountPaid.Some?
    case "amount_change" => req.amountChange.Some?
    case "items" => req.items.Some?
    case _ => true
  }

  /** The first required key, in the view's order, that the payload lacks:
      it is absent, and every key the view checks before it is present. */
  function FirstMissingField(req: SaleRequest): (r: Option<string>)
    ensures r.None? <==> HasRequiredFields(req)
    ensures r.Some? ==> r.value in RequiredFields && !HasField(req, r.value)
    ensures r.Some? ==> forall i, j :: 0 <= j < i < |RequiredFields| && RequiredFields[i] == r.value ==> HasField(req, RequiredFields[j])
  {
    if req.customer.None? then Some("customer")
    else if req.subTotal.None? then Some("sub_total")
    else if req.grandTotal.None? then Some("grand_total")
    else if req.amountPaid.None? then Some("amount_paid")
    else if req.amountChange.None? then Some("amount_change")
    else if req.items.None? then Some("items")
    else None
  }

  /** The sale's financial snapshot; tax amount and percentage default to 0. */
  function SaleFinancials(req: SaleRequest): Financials
    requires HasRequiredFields(req)
  {
    Financials(req.subTotal.value, req.grandTotal.value, req.taxAmount.GetOr(0.0),
               req.taxPercentage.GetOr(0.0), req.amountPaid.value, req.amountChange.value)
  }

  /** `Customer.objects.get(id=...)` */
  function FindCustomer(customers: seq<Customer>, id: Id): (r: Option<Customer>)
    ensures r.Some? ==> r.value in customers && r.value.id == id
    ensures r.None? ==> forall c <- customers :: c.id != id
  {
    if customers == [] then None
    else if customers[0].id == id then Some(customers[0])
    else FindCustomer(customers[1..], id)
  }

  /** The sale line the view creates for a complete payload line. */
  function DetailFor(sale: Id, l: Line): SaleDetail
    requires l.Line?
  {
    SaleDetail(sale, l.id, l.price, l.quantity, l.totalItem)
  }

  /** One sale line per payload line, in order, copying item, price, quantity
      and the client's `total_item` as `total_detail`. */
  function LineDetails(sale: Id, lines: seq<Line>): (r: seq<SaleDetail>)
    requires forall k :: 0 <= k < |lines| ==> lines[k].Line?
    ensures |r| == |lines|
    ensures forall k :: 0 <= k < |lines| ==>
              && r[k].sale == sale && r[k].item == lines[k].id && r[k].price == lines[k].price
              && r[k].quantity == lines[k].quantity && r[k].totalDetail == lines[k].totalItem
  {
    if lines == [] then [] else [DetailFor(sale, lines[0])] + LineDetails(sale, lines[1..])
  }

  /** The loop over the payload lines: `items` is the stock as the
      transaction currently sees it (each line re-reads its item) and
      `details` the sale lines written so far. */
  function SaleLines(items: map<Id, Item>, details: seq<SaleDetail>, sale: Id, lines: seq<Line>)
    : (r: Result<(map<Id, Item>, seq<SaleDetail>)>)
    ensures r.Err? ==> r.error == LineMissingFields || r.error == ItemNotFound || r.error.InsufficientStock?
    decreases |lines|
  {
    if lines == [] then Ok((items, details))
    else
      var l := lines[0];
      if !l.Line? then Err(LineMissingFields)
      else if l.id !in items then Err(ItemNotFound)
      else
        var it := items[l.id];
        if it.quantity < l.quantity then Err(InsufficientStock(it.name))
        else SaleLines(items[l.id := it.(quantity := it.quantity - l.quantity)],
                       details + [DetailFor(sale, l)], sale, lines[1..])
  }

  /** The whole view. `receiptOk` says whether rendering the receipt
      succeeds; that step runs after the commit. */
  function CreateSale(db: Db, req: SaleRequest, receiptOk: bool): Outcome {
    var missing := FirstMissingField(req);
    if missing.Some? then Outcome(Failure(400, MissingField(missing.value)), db)
    else
      var customer := FindCustomer(db.customers, req.customer.value);
      if customer.None? then Outcome(Failure(400, CustomerNotFound), db)
      else if req.hasSav.None? then Outcome(Failure(500, KeyMissing("has_sav")), db)
      else
        var sale := Sale(db.nextId, customer.value.id, SaleFinancials(req), req.hasSav);
        match req.items.value
        case NotAList => Outcome(Failure(400, ItemsNotList), db)
        case List(lines) => SellAndCommit(db, sale, lines, receiptOk)
  }

  /** The transaction of the view: the line loop, then the commit of the
      sale, its lines and the new stock when every line passes. */
  function SellAndCommit(db: Db, sale: Sale, lines: seq<Line>, receiptOk: bool): Outcome {
    match SaleLines(db.items, db.saleDetails, sale.id, lines)
    case Err(e) => Outcome(Failure(400, e), db)
    case Ok((items, details)) =>
      var committed := db.(items := items, sales := db.sales + [sale], saleDetails := details,
                           nextId := db.nextId + 1);
      Outcome(if receiptOk then Success else Failure(500, ReceiptFailed), committed)
  }

  /** A missing required key fails with 400 before anything is written. */
  lemma MissingFieldWritesNothing(db: Db, req: SaleRequest, receiptOk: bool)
    requires !HasRequiredFields(req)
    ensures var r := CreateSale(db, req, receiptOk);
            r.db == db && r.response.Failure? && r.response.status == 400 && r.response.error.MissingField?
  {
  }

  /** An unknown customer, or a payload without `has_sav`, fails before the
      transaction opens: nothing is written. */
  lemma BadCustomerOrSavWritesNothing(db: Db, req: SaleRequest, receiptOk: bool)
    requires HasRequiredFields(req)
    ensures FindCustomer(db.customers, req.customer.value).None? ==>
              CreateSale(db, req, receiptOk) == Outcome(Failure(400, CustomerNotFound), db)
    ensures FindCustomer(db.customers, req.customer.value).Some? && req.hasSav.None? ==>
              CreateSale(db, req, receiptOk) == Outcome(Failure(500, KeyMissing("has_sav")), db)
  {
  }

  /** A line without one of its four keys makes the loop fail, wherever it stands. */
  lemma {:induction false} IncompleteLineFails(items: map<Id, Item>, details: seq<SaleDetail>, sale: Id, lines: seq<Line>, k: nat)
    requires k < |lines| && !lines[k].Line?
    ensures SaleLines(items, details, sale, lines).Err?
    decreases |lines|
  {
    if k > 0 && lines[0].Line? && lines[0].id in items
       && items[lines[0].id].quantity >= lines[0].quantity {
      var l := lines[0];
      var it := items[l.id];
      IncompleteLineFails(items[l.id := it.(quantity := it.quantity - l.quantity)],
                          details + [DetailFor(sale, l)], sale, lines[1..], k - 1);
    }
  }

  /** Atomicity: a sale that fails for any reason other than the receipt
      leaves the database exactly as it was; `items` that is not a list, or
      an incomplete line anywhere, is such a failure. */
  lemma FailureWritesNothing(db: Db, req: SaleRequest, receiptOk: bool)
    ensures var r := CreateSale(db, req, receiptOk);
            r.response.Failure? && r.response.error != ReceiptFailed ==> r.db == db
    ensures HasRequiredFields(req) && req.items.value.List? && FindCustomer(db.customers, req.customer.value).Some?
            && req.hasSav.Some? && (exists k :: 0 <= k < |req.items.value.lines| && !req.items.value.lines[k].Line?)
            ==> var r := CreateSale(db, req, receiptOk);
                r.response.Failure? && r.response.status == 400 && r.db == db
    ensures HasRequiredFields(req) && req.items.value.NotAList? ==> CreateSale(db, req, receiptOk).db == db
    ensures HasRequiredFields(req) && req.items.value.NotAList? && FindCustomer(db.customers, req.customer.value).Some?
            && req.hasSav.Some?
            ==> CreateSale(db, req, receiptOk).response == Failure(400, ItemsNotList)
  {
    if HasRequiredFields(req) && req.items.value.List? && FindCustomer(db.customers, req.customer.value).Some?
       && req.hasSav.Some? && (exists k :: 0 <= k < |req.items.value.lines| && !req.items.value.lines[k].Line?) {
      var k :| 0 <= k < |req.items.value.lines| && !req.items.value.lines[k].Line?;
      IncompleteLineFails(db.items, db.saleDetails, db.nextId, req.items.value.lines, k);
    }
  }

  /** What a successful loop did: every line was complete and named a known
      item, one sale line was appended per payload line, and each item's
      stock fell by the total its lines requested. */
  lemma SaleLinesEffect(items: map<Id, Item>, details: seq<SaleDetail>, sale: Id, lines: seq<Line>)
    requires SaleLines(items, details, sale, lines).Ok?
    ensures forall k :: 0 <= k < |lines| ==> lines[k].Line? && lines[k].id in items
    ensures SaleLines(items, details, sale, lines).value.1 == details + LineDetails(sale, lines)
    ensures var m := SaleLines(items, details, sale, lines).value.0;
            && m.Keys == items.Keys
            && (forall x <- items :: m[x].quantity == items[x].quantity - LineSum(lines, x))
  {
    SaleLinesComplete(items, details, sale, lines);
    SaleLinesDetails(items, details, sale, lines);
    SaleLinesKeys(items, details, sale, lines);
    forall x <- items
      ensures SaleLines(items, details, sale, lines).value.0[x].quantity == items[x].quantity - LineSum(lines, x)
    {
      SaleLinesStock(items, details, sale, lines, x);
    }
  }

  lemma {:induction false} SaleLinesComplete(items: map<Id, Item>, details: seq<SaleDetail>, sale: Id, lines: seq<Line>)
    requires SaleLines(items, details, sale, lines).Ok?
    ensures forall k :: 0 <= k < |lines| ==> lines[k].Line? && lines[k].id in items
    decreases |lines|
  {
    if lines != [] {
      var l := lines[0];
      var it := items[l.id];
      SaleLinesComplete(items[l.id := it.(quantity := it.quantity - l.quantity)],
                        details + [DetailFor(sale, l)], sale, lines[1..]);
      LinesTail(lines, items);
    }
  }

  lemma {:induction false} SaleLinesDetails(items: map<Id, Item>, details: seq<SaleDetail>, sale: Id, lines: seq<Line>)
    requires SaleLines(items, details, sale, lines).Ok?
    requires forall k :: 0 <= k < |lines| ==> lines[k].Line?
    ensures SaleLines(items, details, sale, lines).value.1 == details + LineDetails(sale, lines)
    decreases |lines|
  {
    if lines == [] {
      assert details + [] == details;
    } else {
      var l := lines[0];
      var it := items[l.id];
      SaleLinesDetails(items[l.id := it.(quantity := it.quantity - l.quantity)],
                       details + [DetailFor(sale, l)], sale, lines[1..]);
      LineDetailsStep(sale, lines);
      assert details + [DetailFor(sale, l)] + LineDetails(sale, lines[1..])
          == details + ([DetailFor(sale, l)] + LineDetails(sale, lines[1..]));
    }
  }

  lemma {:induction false} SaleLinesKeys(items: map<Id, Item>, details: seq<SaleDetail>, sale: Id, lines: seq<Line>)
    requires SaleLines(items, details, sale, lines).Ok?
    ensures SaleLines(items, details, sale, lines).value.0.Keys == items.Keys
    decreases |lines|
  {
    if lines != [] {
      var l := lines[0];
      var it := items[l.id];
      SaleLinesKeys(items[l.id := it.(quantity := it.quantity - l.quantity)],
                    details + [DetailFor(sale, l)], sale, lines[1..]);
    }
  }

  lemma {:induction false} SaleLinesStock(items: map<Id, Item>, details: seq<SaleDetail>, sale: Id, lines: seq<Line>, x: Id)
    requires SaleLines(items, details, sale, lines).Ok? && x in items
    ensures var m := SaleLines(items, details, sale, lines).value.0;
            x in m && m[x].quantity == items[x].quantity - LineSum(lines, x)
    decreases |lines|
  {
    SaleLinesKeys(items, details, sale, lines);
    if lines != [] {
      var l := lines[0];
      var it := items[l.id];
      SaleLinesStock(items[l.id := it.(quantity := it.quantity - l.quantity)],
                     details + [DetailFor(sale, l)], sale, lines[1..], x);
    }
  }

  lemma LinesTail(lines: seq<Line>, items: map<Id, Item>)
    requires lines != [] && lines[0].Line? && lines[0].id in items
    requires forall k :: 0 <= k < |lines[1..]| ==> lines[1..][k].Line? && lines[1..][k].id in items
    ensures forall k :: 0 <= k < |lines| ==> lines[k].Line? && lines[k].id in items
  {
    forall k | 1 <= k < |lines| ensures lines[k].Line? && lines[k].id in items {
      assert lines[k] == lines[1..][k - 1];
    }
  }

  lemma LineDetailsStep(sale: Id, lines: seq<Line>)
    requires lines != [] && forall k :: 0 <= k < |lines| ==> lines[k].Line?
    ensures LineDetails(sale, lines) == [DetailFor(sale, lines[0])] + LineDetails(sale, lines[1..])
  {
  }

  /** Each line is checked against the stock the earlier lines left, so a
      successful loop never takes a stock level below zero. */
  lemma {:induction false} SaleLinesKeepStock(items: map<Id, Item>, details: seq<SaleDetail>, sale: Id, lines: seq<Line>)
    requires forall x <- items :: items[x].quantity >= 0
    requires SaleLines(items, details, sale, lines).Ok?
    ensures var m := SaleLines(items, details, sale, lines).value.0; forall x <- m :: m[x].quantity >= 0
    decreases |lines|
  {
    if lines != [] {
      var l := lines[0];
      var it := items[l.id];
      SaleLinesKeepStock(items[l.id := it.(quantity := it.quantity - l.quantity)],
                         details + [DetailFor(sale, l)], sale, lines[1..]);
    }
  }

  /** The loop changes nothing about an item but its stock, and adds or
      removes no item. */
  lemma {:induction false} SaleLinesOnlyStock(items: map<Id, Item>, details: seq<SaleDetail>, sale: Id, lines: seq<Line>)
    requires SaleLines(items, details, sale, lines).Ok?
    ensures var m := SaleLines(items, details, sale, lines).value.0;
            && m.Keys == items.Keys
            && forall x <- m :: m[x].(quantity := items[x].quantity) == items[x]
    decreases |lines|
  {
    if lines != [] {
      var l := lines[0];
      var it := items[l.id];
      SaleLinesOnlyStock(items[l.id := it.(quantity := it.quantity - l.quantity)],
                         details + [DetailFor(sale, l)], sale, lines[1..]);
    }
  }

  /** For complete lines naming known items with non-negative quantities,
      the loop fails (on insufficient stock) exactly when some item is asked
      for more than it holds in total: repeated lines of one item are checked
      against the already reduced stock. */
  lemma {:induction false} SaleLinesSucceedIff(items: map<Id, Item>, details: seq<SaleDetail>, sale: Id, lines: seq<Line>)
    requires forall x <- items :: items[x].quantity >= 0
    requires forall k :: 0 <= k < |lines| ==>
               lines[k].Line? && lines[k].id in items && lines[k].quantity >= 0
    ensures SaleLines(items, details, sale, lines).Ok?
            <==> forall x <- items :: LineSum(lines, x) <= items[x].quantity
    decreases |lines|
  {
    if SaleLines(items, details, sale, lines).Ok? {
      SaleLinesEffect(items, details, sale, lines);
      SaleLinesKeepStock(items, details, sale, lines);
      var m := SaleLines(items, details, sale, lines).value.0;
      forall x <- items ensures LineSum(lines, x) <= items[x].quantity {
        assert m[x].quantity >= 0;
      }
    } else if forall x <- items :: LineSum(lines, x) <= items[x].quantity {
      SumsFitMeansOk(items, details, sale, lines);
    }
  }

  lemma {:induction false} LineSumNonNegative(lines: seq<Line>, x: Id)
    requires forall k :: 0 <= k < |lines| ==> lines[k].Line? && lines[k].quantity >= 0
    ensures LineSum(lines, x) >= 0
  {
    if lines != [] {
      LineSumNonNegative(lines[1..], x);
    }
  }

  lemma {:induction false} SumsFitMeansOk(items: map<Id, Item>, details: seq<SaleDetail>, sale: Id, lines: seq<Line>)
    requires forall k :: 0 <= k < |lines| ==>
               lines[k].Line? && lines[k].id in items && lines[k].quantity >= 0
    requires forall x <- items :: LineSum(lines, x) <= items[x].quantity
    ensures SaleLines(items, details, sale, lines).Ok?
    decreases |lines|
  {
    if lines != [] {
      var l := lines[0];
      var id := l.id;
      var it := items[id];
      LineSumNonNegative(lines[1..], id);
      assert LineSum(lines, id) == l.quantity + LineSum(lines[1..], id);
      var items' := items[id := it.(quantity := it.quantity - l.quantity)];
      forall x <- items' ensures LineSum(lines[1..], x) <= items'[x].quantity {
        assert LineSum(lines, x) == (if x == id then l.quantity else 0) + LineSum(lines[1..], x);
      }
      SumsFitMeansOk(items', details + [DetailFor(sale, l)], sale, lines[1..]);
    }
  }

  /** A committed sale (whether or not its receipt then renders): one new
      sale for the known customer with the payload's snapshot, one sale line
      per payload line, each item's stock reduced by its lines' total. */
  lemma CommittedSale(db: Db, req: SaleRequest, receiptOk: bool)
    requires var r := CreateSale(db, req, receiptOk); r.response.Success? || r.response.error == ReceiptFailed
    ensures HasRequiredFields(req) && req.items.value.List? && req.hasSav.Some?
    ensures FindCustomer(db.customers, req.customer.value).Some?
    ensures forall k :: 0 <= k < |req.items.value.lines| ==>
              req.items.value.lines[k].Line? && req.items.value.lines[k].id in db.items
    ensures var r := CreateSale(db, req, receiptOk); var lines := req.items.value.lines;
            && r.db.sales == db.sales + [Sale(db.nextId, req.customer.value, SaleFinancials(req), req.hasSav)]
            && r.db.saleDetails == db.saleDetails + LineDetails(db.nextId, lines)
            && r.db.items.Keys == db.items.Keys
            && (forall x <- db.items :: r.db.items[x].quantity == db.items[x].quantity - LineSum(lines, x))
            && r.db.deliveries == db.deliveries && r.db.customers == db.customers
            && r.db.purchases == db.purchases && r.db.deliveryDetails == db.deliveryDetails
            && (r.response.Success? <==> receiptOk)
  {
    var lines := req.items.value.lines;
    assert SaleLines(db.items, db.saleDetails, db.nextId, lines).Ok?;
    SaleLinesEffect(db.items, db.saleDetails, db.nextId, lines);
  }

  /** Creating a sale keeps the store invariant, whatever the payload. */
  lemma CreateSaleKeepsValid(db: Db, req: SaleRequest, receiptOk: bool)
    requires Valid(db)
    ensures Valid(CreateSale(db, req, receiptOk).db)
  {
    var r := CreateSale(db, req, receiptOk);
    if r.db != db {
      var customer := FindCustomer(db.customers, req.customer.value).value;
      var sale := Sale(db.nextId, customer.id, SaleFinancials(req), req.hasSav);
      SellAndCommitKeepsValid(db, sale, req.items.value.lines, receiptOk);
    }
  }

  /** The transaction keeps the invariant for a sale under the next key of
      a customer already stored. */
  lemma SellAndCommitKeepsValid(db: Db, sale: Sale, lines: seq<Line>, receiptOk: bool)
    requires Valid(db) && sale.id == db.nextId && sale.customer < db.nextId
    ensures Valid(SellAndCommit(db, sale, lines, receiptOk).db)
  {
    if SaleLines(db.items, db.saleDetails, sale.id, lines).Ok? {
      SaleLinesEffect(db.items, db.saleDetails, db.nextId, lines);
      SaleLinesKeepStock(db.items, db.saleDetails, db.nextId, lines);
      SaleLinesOnlyStock(db.items, db.saleDetails, db.nextId, lines);
      var ds := LineDetails(db.nextId, lines);
      assert forall sd <- ds :: sd.sale == db.nextId;
      assert forall s <- db.sales :: s.id < db.nextId;
    }
  }

  /** Ten in stock, a sale of four: one sale, one line, six left. */
  lemma SellFourOfTen(db: Db, req: SaleRequest, x: Item)
    requires x.id in db.items && db.items[x.id] == x && x.quantity == 10
    requires FindCustomer(db.customers, 1).Some?
    requires req == SaleRequest(Some(1), Some(4.0), Some(4.0), None, None, Some(4.0), Some(0.0), Some(false),
                                Some(List([Line(x.id, 1.0, 4, 4.0)])))
    ensures var r := CreateSale(db, req, true);
            && r.response == Success
            && x.id in r.db.items && r.db.items[x.id].quantity == 6
            && |r.db.sales| == |db.sales| + 1 && |r.db.saleDetails| == |db.saleDetails| + 1
  {
    var lines := req.items.value.lines;
    var items' := db.items[x.id := x.(quantity := 6)];
    var details' := db.saleDetails + [DetailFor(db.nextId, lines[0])];
    assert lines[1..] == [];
    assert SaleLines(db.items, db.saleDetails, db.nextId, lines) == Ok((items', details'));
  }

  /** Three in stock, a sale of five: refused, nothing written. */
  lemma SellFiveOfThree(db: Db, req: SaleRequest, x: Item)
    requires x.id in db.items && db.items[x.id] == x && x.quantity == 3
    requires FindCustomer(db.customers, 1).Some?
    requires req == SaleRequest(Some(1), Some(5.0), Some(5.0), None, None, Some(5.0), Some(0.0), Some(false),
                                Some(List([Line(x.id, 1.0, 5, 5.0)])))
    ensures CreateSale(db, req, true) == Outcome(Failure(400, InsufficientStock(x.name)), db)
  {
    assert SaleLines(db.items, db.saleDetails, db.nextId, req.items.value.lines) == Err(InsufficientStock(x.name));
  }
}
