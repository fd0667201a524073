/** The two-phase delivery lifecycle of store/views.py. Booking
    (`DeliveryCreateView`) records a delivery and its lines, checking each
    line against the current stock without taking anything off it.
    Confirmation (`update_delivery_status`) marks the delivery delivered
    and, inside one transaction, takes each line off the stock and copies it
    into a sale found or created for the delivery's customer. */
module Deliveries {
  import opened Models
  import opened Text

  // ---------------------------------------------------------------------
  // Booking

  datatype DeliveryRequest = DeliveryRequest(
    customerName: Option<string>,
    phone: Option<string>,
    location: Option<string>,
    deliveryDate: Option<Timestamp>,
    subTotal: Option<Money>,
    grandTotal: Option<Money>,
    taxAmount: Option<Money>,
    taxPercentage: Option<Money>,
    amountPaid: Option<Money>,
    amountChange: Option<Money>,
    items: Option<LinesField>)

  /** All nine keys the booking view insists on are present. */
  predicate HasRequiredKeys(req: DeliveryRequest) {
    && req.customerName.Some? && req.phone.Some? && req.location.Some? && req.deliveryDate.Some?
    && req.subTotal.Some? && req.grandTotal.Some? && req.amountPaid.Some? && req.amountChange.Some?
    && req.items.Some?
  }

  /** The keys the booking view insists on, in the order it checks them. */
  const RequiredKeys: seq<string> := ["customer_name", "phone_number", "location", "delivery_date",
                                      "sub_total", "grand_total", "amount_paid", "amount_change", "items"]

  /** Whether the payload carries the required key `k`. */
  predicate HasKey(req: DeliveryRequest, k: string) {
    match k
    case "customer_name" => req.customerName.Some?
    case "phone_number" => req.phone.Some?
    case "location" => req.location.Some?
    case "delivery_date" => req.deliveryDate.Some?
    case "sub_total" => req.subTotal.Some?
    case "grand_total" => req.grandTotal.Some?
    case "amount_paid" => req.amountPaid.Some?
    case "amount_change" => req.amountChange.Some?
    case "items" => req.items.Some?
    case _ => true
  }

  /** The first required key, in the view's order, that the payload lacks:
      it is absent, and every key the view checks before it is present. */
  function FirstMissingKey(req: DeliveryRequest): (r: Option<string>)
    ensures r.None? <==> HasRequiredKeys(req)
    ensures r.Some? ==> r.value in RequiredKeys && !HasKey(req, r.value)
    ensures r.Some? ==> forall i, j :: 0 <= j < i < |RequiredKeys| && RequiredKeys[i] == r.value ==> HasKey(req, RequiredKeys[j])
  {
    if req.customerName.None? then Some("customer_name")
    else if req.phone.None? then Some("phone_number")
    else if req.location.None? then Some("location")
    else if req.deliveryDate.None? then Some("delivery_date")
    else if req.subTotal.None? then Some("sub_total")
    else if req.grandTotal.None? then Some("grand_total")
    else if req.amountPaid.None? then Some("amount_paid")
    else if req.amountChange.None? then Some("amount_change")
    else if req.items.None? then Some("items")
    else None
  }

  /** The booked delivery: the payload's fields, status NOT_DELIVERED, and
      tax amount and percentage defaulting to 0. */
  function BookedDelivery(id: Id, req: DeliveryRequest): (d: Delivery)
    requires HasRequiredKeys(req)
    ensures d.id == id && d.status == NotDelivered && d.status == DefaultDeliveryStatus
    ensures d.customerName == req.customerName.value && d.phone == req.phone.value
    ensures d.fin.taxAmount == req.taxAmount.GetOr(0.0) && d.fin.taxPercentage == req.taxPercentage.GetOr(0.0)
    ensures d.fin.subTotal == req.subTotal.value && d.fin.grandTotal == req.grandTotal.value
    ensures d.location == req.location.value && d.deliveryDate == req.deliveryDate.value
    ensures d.fin.amountPaid == req.amountPaid.value && d.fin.amountChange == req.amountChange.value
  {
    Delivery(id, req.customerName.value, req.phone.value, req.location.value, req.deliveryDate.value,
             NotDelivered,
             Financials(req.subTotal.value, req.grandTotal.value, req.taxAmount.GetOr(0.0),
                        req.taxPercentage.GetOr(0.0), req.amountPaid.value, req.amountChange.value))
  }

  /** The delivery line booked for a complete payload line. */
  function BookedDetail(delivery: Id, l: Line): DeliveryDetail
    requires l.Line?
  {
    DeliveryDetail(delivery, l.id, l.price, l.quantity, l.totalItem)
  }

  /** One delivery line per payload line, in order. */
  function BookedDetails(delivery: Id, lines: seq<Line>): (r: seq<DeliveryDetail>)
    requires forall k :: 0 <= k < |lines| ==> lines[k].Line?
    ensures |r| == |lines|
    ensures forall k :: 0 <= k < |lines| ==>
              && r[k].delivery == delivery && r[k].item == lines[k].id && r[k].price == lines[k].price
              && r[k].quantity == lines[k].quantity && r[k].totalDetail == lines[k].totalItem
  {
    if lines == [] then [] else [BookedDetail(delivery, lines[0])] + BookedDetails(delivery, lines[1..])
  }

  /** The booking loop: every line is checked against `items`, which the
      loop never changes. A line asking for a negative quantity passes the
      stock check, and its row is then refused by the database because
      `DeliveryDetail.quantity` is a `PositiveIntegerField`. */
  function BookLines(items: map<Id, Item>, details: seq<DeliveryDetail>, delivery: Id, lines: seq<Line>)
    : (r: Result<seq<DeliveryDetail>>)
    ensures r.Err? ==> || r.error == LineMissingFields || r.error == ItemNotFound
                       || r.error == NegativeQuantity || r.error.InsufficientStock?
    decreases |lines|
  {
    if lines == [] then Ok(details)
    else
      var l := lines[0];
      if !l.Line? then Err(LineMissingFields)
      else if l.id !in items then Err(ItemNotFound)
      else if items[l.id].quantity < l.quantity then Err(InsufficientStock(items[l.id].name))
      else if l.quantity < 0 then Err(NegativeQuantity)
      else BookLines(items, details + [BookedDetail(delivery, l)], delivery, lines[1..])
  }

  /** The HTTP status of a booking failure: the database's refusal falls
      through to the catch-all handler, every other failure is a 400. */
  function BookingStatus(e: Error): int {
    if e == NegativeQuantity then 500 else 400
  }

  /** The whole booking view. `receiptOk` says whether rendering the receipt
      succeeds; that step runs after the commit. */
  function CreateDelivery(db: Db, req: DeliveryRequest, receiptOk: bool): Outcome {
    var missing := FirstMissingKey(req);
    if missing.Some? then Outcome(Failure(400, MissingField(missing.value)), db)
    else
      var d := BookedDelivery(db.nextId, req);
      match req.items.value
      case NotAList => Outcome(Failure(400, ItemsNotList), db)
      case List(lines) => BookAndCommit(db, d, lines, receiptOk)
  }

  /** The transaction of the booking view: the line loop, then the commit
      of the delivery and its lines when every line passes. */
  function BookAndCommit(db: Db, d: Delivery, lines: seq<Line>, receiptOk: bool): Outcome {
    match BookLines(db.items, db.deliveryDetails, d.id, lines)
    case Err(e) => Outcome(Failure(BookingStatus(e), e), db)
    case Ok(details) =>
      var committed := db.(deliveries := db.deliveries + [d], deliveryDetails := details,
                           nextId := db.nextId + 1);
      Outcome(if receiptOk then Success else Failure(500, ReceiptFailed), committed)
  }

  /** A missing key fails with 400 before anything is written. */
  lemma BookingMissingKeyWritesNothing(db: Db, req: DeliveryRequest, receiptOk: bool)
    requires !HasRequiredKeys(req)
    ensures var r := CreateDelivery(db, req, receiptOk);
            r.db == db && r.response.Failure? && r.response.status == 400 && r.response.error.MissingField?
  {
  }

  /** Booking never changes a stock level, whatever the payload, and a
      failure other than the receipt leaves the database as it was. */
  lemma BookingKeepsStock(db: Db, req: DeliveryRequest, receiptOk: bool)
    ensures CreateDelivery(db, req, receiptOk).db.items == db.items
    ensures var r := CreateDelivery(db, req, receiptOk);
            r.response.Failure? && r.response.error != ReceiptFailed ==> r.db == db
  {
  }

  /** What a successful booking loop checked and wrote: every line was
      complete, named a known item and asked for between zero and that
      item's unchanged stock, and one delivery line was appended per line. */
  lemma BookLinesEffect(items: map<Id, Item>, details: seq<DeliveryDetail>, delivery: Id, lines: seq<Line>)
    requires BookLines(items, details, delivery, lines).Ok?
    ensures forall k :: 0 <= k < |lines| ==>
              && lines[k].Line? && lines[k].id in items
              && 0 <= lines[k].quantity <= items[lines[k].id].quantity
    ensures BookLines(items, details, delivery, lines).value == details + BookedDetails(delivery, lines)
  {
    BookLinesChecked(items, details, delivery, lines);
    BookLinesWritten(items, details, delivery, lines);
  }

  lemma {:induction false} BookLinesChecked(items: map<Id, Item>, details: seq<DeliveryDetail>, delivery: Id, lines: seq<Line>)
    requires BookLines(items, details, delivery, lines).Ok?
    ensures forall k :: 0 <= k < |lines| ==>
              && lines[k].Line? && lines[k].id in items
              && 0 <= lines[k].quantity <= items[lines[k].id].quantity
    decreases |lines|
  {
    if lines != [] {
      BookLinesChecked(items, details + [BookedDetail(delivery, lines[0])], delivery, lines[1..]);
      forall k | 1 <= k < |lines|
        ensures lines[k].Line? && lines[k].id in items && 0 <= lines[k].quantity <= items[lines[k].id].quantity
      {
        assert lines[k] == lines[1..][k - 1];
      }
    }
  }

  lemma {:induction false} BookLinesWritten(items: map<Id, Item>, details: seq<DeliveryDetail>, delivery: Id, lines: seq<Line>)
    requires BookLines(items, details, delivery, lines).Ok?
    requires forall k :: 0 <= k < |lines| ==> lines[k].Line?
    ensures BookLines(items, details, delivery, lines).value == details + BookedDetails(delivery, lines)
    decreases |lines|
  {
    if lines == [] {
      assert details + [] == details;
    } else {
      var b := BookedDetail(delivery, lines[0]);
      BookLinesWritten(items, details + [b], delivery, lines[1..]);
      assert BookedDetails(delivery, lines) == [b] + BookedDetails(delivery, lines[1..]);
      assert details + [b] + BookedDetails(delivery, lines[1..])
          == details + ([b] + BookedDetails(delivery, lines[1..]));
    }
  }

  /** For complete lines naming known items, booking succeeds exactly when
      each line, on its own, asks for no more than the item holds and for
      no less than zero. */
  lemma {:induction false} BookLinesSucceedIff(items: map<Id, Item>, details: seq<DeliveryDetail>, delivery: Id, lines: seq<Line>)
    requires forall k :: 0 <= k < |lines| ==> lines[k].Line? && lines[k].id in items
    ensures BookLines(items, details, delivery, lines).Ok?
            <==> forall k :: 0 <= k < |lines| ==> 0 <= lines[k].quantity <= items[lines[k].id].quantity
    decreases |lines|
  {
    if BookLines(items, details, delivery, lines).Ok? {
      BookLinesEffect(items, details, delivery, lines);
    } else if lines != [] {
      var l := lines[0];
      if 0 <= l.quantity <= items[l.id].quantity {
        BookLinesSucceedIff(items, details + [BookedDetail(delivery, l)], delivery, lines[1..]);
        var k :| 0 <= k < |lines[1..]| && !(0 <= lines[1..][k].quantity <= items[lines[1..][k].id].quantity);
        assert lines[1..][k] == lines[k + 1];
      }
    }
  }

  /** The total quantity a list of complete lines asks for. */
  function LineTotal(lines: seq<Line>): int {
    if lines == [] then 0 else (if lines[0].Line? then lines[0].quantity else 0) + LineTotal(lines[1..])
  }

  lemma {:induction false} BookedTotal(delivery: Id, lines: seq<Line>)
    requires forall k :: 0 <= k < |lines| ==> lines[k].Line?
    ensures QuantitySum(BookedDetails(delivery, lines)) == LineTotal(lines)
    ensures DetailsOf(BookedDetails(delivery, lines), delivery) == BookedDetails(delivery, lines)
  {
    if lines != [] {
      BookedTotal(delivery, lines[1..]);
      var ds := BookedDetails(delivery, lines);
      assert ds == [BookedDetail(delivery, lines[0])] + BookedDetails(delivery, lines[1..]);
      assert ds[1..] == BookedDetails(delivery, lines[1..]);
    }
  }

  /** A committed booking (whether or not its receipt then renders): one new
      delivery, not delivered, with one line per payload line, and no stock
      change. */
  lemma CommittedBooking(db: Db, req: DeliveryRequest, receiptOk: bool)
    requires var r := CreateDelivery(db, req, receiptOk); r.response.Success? || r.response.error == ReceiptFailed
    ensures HasRequiredKeys(req) && req.items.value.List?
    ensures forall k :: 0 <= k < |req.items.value.lines| ==> req.items.value.lines[k].Line?
    ensures var r := CreateDelivery(db, req, receiptOk); var lines := req.items.value.lines;
            var d := BookedDelivery(db.nextId, req);
            && r.db.deliveries == db.deliveries + [d]
            && r.db.deliveryDetails == db.deliveryDetails + BookedDetails(d.id, lines)
            && r.db.items == db.items && r.db.sales == db.sales && r.db.saleDetails == db.saleDetails
            && (r.response.Success? <==> receiptOk)
  {
    var lines := req.items.value.lines;
    var d := BookedDelivery(db.nextId, req);
    assert BookLines(db.items, db.deliveryDetails, d.id, lines).Ok?;
    BookLinesEffect(db.items, db.deliveryDetails, d.id, lines);
  }

  /** In a valid store, the `sum_products` of a freshly booked delivery is
      the quantity its payload asked for. */
  lemma BookedSumProducts(db: Db, req: DeliveryRequest, receiptOk: bool)
    requires Valid(db)
    requires var r := CreateDelivery(db, req, receiptOk); r.response.Success? || r.response.error == ReceiptFailed
    ensures HasRequiredKeys(req) && req.items.value.List?
    ensures SumProducts(CreateDelivery(db, req, receiptOk).db, BookedDelivery(db.nextId, req))
            == LineTotal(req.items.value.lines)
  {
    CommittedBooking(db, req, receiptOk);
    var r := CreateDelivery(db, req, receiptOk).db;
    var lines := req.items.value.lines;
    var d := BookedDelivery(db.nextId, req);
    var ds := BookedDetails(d.id, lines);
    assert r.deliveryDetails == db.deliveryDetails + ds;
    NoDetailsLeft(db.deliveryDetails, d.id);
    DetailsOfAppend(db.deliveryDetails, ds, d.id);
    BookedTotal(d.id, lines);
    assert DetailsOf(r.deliveryDetails, d.id) == ds;
  }

  /** Booking keeps the store invariant, whatever the payload: every line
      written holds a non-negative quantity. */
  lemma CreateDeliveryKeepsValid(db: Db, req: DeliveryRequest, receiptOk: bool)
    requires Valid(db)
    ensures Valid(CreateDelivery(db, req, receiptOk).db)
  {
    var r := CreateDelivery(db, req, receiptOk);
    if r.db != db {
      var lines := req.items.value.lines;
      BookLinesEffect(db.items, db.deliveryDetails, db.nextId, lines);
      var ds := BookedDetails(db.nextId, lines);
      assert forall dd <- ds :: dd.delivery == db.nextId && dd.quantity >= 0;
    }
  }

  /** Lines are checked one by one against the same stock: three in stock,
      two lines of two each, and the booking is accepted. */
  lemma OverbookingAccepted(db: Db, req: DeliveryRequest, x: Item)
    requires x.id in db.items && db.items[x.id] == x && x.quantity == 3
    requires req == DeliveryRequest(Some("Ada Obi"), Some("+237600000000"), Some("Douala"), Some(0),
                                    Some(8.0), Some(8.0), None, None, Some(8.0), Some(0.0),
                                    Some(List([Line(x.id, 2.0, 2, 4.0), Line(x.id, 2.0, 2, 4.0)])))
    ensures var r := CreateDelivery(db, req, true);
            && r.response == Success
            && LineTotal(req.items.value.lines) > x.quantity
            && r.db.items == db.items
  {
    var lines := req.items.value.lines;
    BookLinesSucceedIff(db.items, db.deliveryDetails, db.nextId, lines);
    assert LineTotal(lines[2..]) == 0;
  }

  // ---------------------------------------------------------------------
  // Customer name split

  /** `first_name`: the first whitespace token of the name, or the whole
      name when it has none. */
  function FirstName(name: string): string {
    var ts := Tokens(name);
    if ts != [] then ts[0] else name
  }

  /** `last_name`: the remaining tokens joined by single spaces, or '' when
      there is at most one token. */
  function LastName(name: string): string {
    var ts := Tokens(name);
    if |ts| > 1 then Join(ts[1..], " ") else ""
  }

  /** The split loses no token and invents none: the first name is the
      first token and splitting the last name gives back the others. A name
      without tokens (empty or all whitespace) is kept whole as the first
      name. */
  lemma NameSplit(name: string)
    ensures Tokens(name) == [] ==> FirstName(name) == name && LastName(name) == ""
    ensures Tokens(name) != [] ==>
              && IsToken(FirstName(name))
              && [FirstName(name)] + Tokens(LastName(name)) == Tokens(name)
  {
    var ts := Tokens(name);
    TokensAreTokens(name);
    if |ts| > 1 {
      SplitJoin(ts[1..]);
    }
    if ts != [] {
      assert ts == [ts[0]] + ts[1..];
    }
  }

  // ---------------------------------------------------------------------
  // Confirmation

  /** `Delivery.objects.get(id=...)` */
  function FindDelivery(ds: seq<Delivery>, id: Id): (r: Option<Delivery>)
    ensures r.Some? ==> r.value in ds && r.value.id == id
    ensures r.None? ==> forall d <- ds :: d.id != id
  {
    if ds == [] then None else if ds[0].id == id then Some(ds[0]) else FindDelivery(ds[1..], id)
  }

  /** Saving the delivery with status DELIVERED. */
  function MarkDelivered(ds: seq<Delivery>, id: Id): (r: seq<Delivery>)
    ensures |r| == |ds|
    ensures forall k :: 0 <= k < |ds| ==> r[k] == if ds[k].id == id then ds[k].(status := Delivered) else ds[k]
  {
    if ds == [] then [] else [if ds[0].id == id then ds[0].(status := Delivered) else ds[0]] + MarkDelivered(ds[1..], id)
  }

  lemma {:induction false} FindAfterMark(ds: seq<Delivery>, id: Id)
    requires FindDelivery(ds, id).Some?
    ensures FindDelivery(MarkDelivered(ds, id), id) == Some(FindDelivery(ds, id).value.(status := Delivered))
  {
    if ds[0].id != id {
      FindAfterMark(ds[1..], id);
      assert MarkDelivered(ds, id)[1..] == MarkDelivered(ds[1..], id);
    }
  }

  /** The customers whose phone is `phone`, in table order. */
  function PhoneMatches(cs: seq<Customer>, phone: string): seq<Customer> {
    if cs == [] then [] else (if cs[0].phone == phone then [cs[0]] else []) + PhoneMatches(cs[1..], phone)
  }

  /** The sales of `customer` whose six financial fields equal `fin`. */
  function SaleMatches(ss: seq<Sale>, customer: Id, fin: Financials): seq<Sale> {
    if ss == [] then []
    else (if ss[0].customer == customer && ss[0].fin == fin then [ss[0]] else []) + SaleMatches(ss[1..], customer, fin)
  }

  /** The filters keep exactly the matching rows. */
  lemma {:induction false} PhoneMatchesExact(cs: seq<Customer>, phone: string)
    ensures forall c <- PhoneMatches(cs, phone) :: c in cs && c.phone == phone
    ensures forall c <- cs :: c.phone == phone ==> c in PhoneMatches(cs, phone)
  {
    if cs != [] {
      PhoneMatchesExact(cs[1..], phone);
    }
  }

  lemma {:induction false} SaleMatchesExact(ss: seq<Sale>, customer: Id, fin: Financials)
    ensures forall s <- SaleMatches(ss, customer, fin) :: s in ss && s.customer == customer && s.fin == fin
    ensures forall s <- ss :: s.customer == customer && s.fin == fin ==> s in SaleMatches(ss, customer, fin)
  {
    if ss != [] {
      SaleMatchesExact(ss[1..], customer, fin);
    }
  }

  lemma {:induction false} PhoneMatchesAppend(cs: seq<Customer>, c: Customer, phone: string)
    ensures PhoneMatches(cs + [c], phone) == PhoneMatches(cs, phone) + (if c.phone == phone then [c] else [])
  {
    if cs == [] {
      assert cs + [c] == [c];
    } else {
      assert (cs + [c])[1..] == cs[1..] + [c];
      PhoneMatchesAppend(cs[1..], c, phone);
    }
  }

  lemma {:induction false} SaleMatchesAppend(ss: seq<Sale>, s: Sale, customer: Id, fin: Financials)
    ensures SaleMatches(ss + [s], customer, fin)
            == SaleMatches(ss, customer, fin) + (if s.customer == customer && s.fin == fin then [s] else [])
  {
    if ss == [] {
      assert ss + [s] == [s];
    } else {
      assert (ss + [s])[1..] == ss[1..] + [s];
      SaleMatchesAppend(ss[1..], s, customer, fin);
    }
  }

  /** The customer `get_or_create` makes for a delivery: named by splitting
      the delivery's customer name, living at the delivery's location. */
  function NewCustomer(id: Id, d: Delivery): (c: Customer)
    ensures c.id == id && c.phone == d.phone && c.address == d.location
    ensures c.firstName == FirstName(d.customerName) && c.lastName == LastName(d.customerName)
  {
    Customer(id, FirstName(d.customerName), LastName(d.customerName), d.location, d.phone)
  }

  /** `Customer.objects.get_or_create(phone=...)`: the one customer with the
      delivery's phone, or a new one named from the delivery; several
      matches raise. */
  function GetOrCreateCustomer(db: Db, d: Delivery): (r: Result<(Id, Db)>)
    ensures r.Err? ==> r.error == MultipleObjects("Customer")
  {
    var found := PhoneMatches(db.customers, d.phone);
    if |found| == 0 then
      var c := NewCustomer(db.nextId, d);
      Ok((c.id, db.(customers := db.customers + [c], nextId := db.nextId + 1)))
    else if |found| == 1 then Ok((found[0].id, db))
    else Err(MultipleObjects("Customer"))
  }

  /** `Sale.objects.get_or_create(customer=..., <six financial fields>)`:
      the one matching sale, or a new one; several matches raise. */
  function GetOrCreateSale(db: Db, customer: Id, fin: Financials): (r: Result<(Id, Db)>)
    ensures r.Err? ==> r.error == MultipleObjects("Sale")
  {
    var found := SaleMatches(db.sales, customer, fin);
    if |found| == 0 then
      var s := Sale(db.nextId, customer, fin, None);
      Ok((s.id, db.(sales := db.sales + [s], nextId := db.nextId + 1)))
    else if |found| == 1 then Ok((found[0].id, db))
    else Err(MultipleObjects("Sale"))
  }

  /** The sale line confirmation copies from a delivery line. */
  function CopyDetail(sale: Id, dd: DeliveryDetail): SaleDetail {
    SaleDetail(sale, dd.item, dd.price, dd.quantity, dd.totalDetail)
  }

  function CopyDetails(sale: Id, dds: seq<DeliveryDetail>): (r: seq<SaleDetail>)
    ensures |r| == |dds|
    ensures forall k :: 0 <= k < |dds| ==>
              && r[k].sale == sale && r[k].item == dds[k].item && r[k].price == dds[k].price
              && r[k].quantity == dds[k].quantity && r[k].totalDetail == dds[k].totalDetail
  {
    if dds == [] then [] else [CopyDetail(sale, dds[0])] + CopyDetails(sale, dds[1..])
  }

  /** The stock step of a pass: the line re-reads its item, refuses a
      quantity above its stock and takes the quantity off. */
  function TakeStock(db: Db, dd: DeliveryDetail): (r: Result<Db>)
    ensures r.Err? ==> r.error == ItemNotFound || r.error.InsufficientStock?
    ensures r.Ok? <==> dd.item in db.items && db.items[dd.item].quantity >= dd.quantity
  {
    if dd.item !in db.items then Err(ItemNotFound)
    else
      var it := db.items[dd.item];
      if it.quantity < dd.quantity then Err(InsufficientStock(it.name))
      else Ok(db.(items := db.items[dd.item := it.(quantity := it.quantity - dd.quantity)]))
  }

  /** One pass of the confirmation loop, inside the transaction: take the
      stock, find or create the customer and then the sale, and copy the
      delivery line into a sale line. */
  function ConfirmLine(db: Db, d: Delivery, dd: DeliveryDetail): (r: Result<Db>)
    ensures r.Err? ==> r.error == ItemNotFound || r.error.InsufficientStock? || r.error.MultipleObjects?
  {
    match TakeStock(db, dd)
    case Err(e) => Err(e)
    case Ok(taken) =>
      match GetOrCreateCustomer(taken, d)
      case Err(e) => Err(e)
      case Ok((c, withCustomer)) =>
        match GetOrCreateSale(withCustomer, c, d.fin)
        case Err(e) => Err(e)
        case Ok((s, withSale)) => Ok(withSale.(saleDetails := withSale.saleDetails + [CopyDetail(s, dd)]))
  }

  /** The confirmation loop over the delivery's lines. */
  function ConfirmDetails(db: Db, d: Delivery, dds: seq<DeliveryDetail>): (r: Result<Db>)
    ensures r.Err? ==> r.error == ItemNotFound || r.error.InsufficientStock? || r.error.MultipleObjects?
    decreases |dds|
  {
    if dds == [] then Ok(db)
    else
      match ConfirmLine(db, d, dds[0])
      case Err(e) => Err(e)
      case Ok(next) => ConfirmDetails(next, d, dds[1..])
  }

  /** The HTTP status of a confirmation failure: the stock check raises a
      ValueError (400); everything else reaches the catch-all handler. */
  function ConfirmStatus(e: Error): int {
    if e.InsufficientStock? then 400 else 500
  }

  /** The whole confirmation view. `receiptOk` says whether rendering the
      receipt succeeds; that step runs inside the transaction, so its
      failure rolls everything back. */
  function ConfirmDelivery(db: Db, id: Id, receiptOk: bool): Outcome {
    match FindDelivery(db.deliveries, id)
    case None => Outcome(Failure(404, DeliveryNotFound), db)
    case Some(d) =>
      if d.status == Delivered then Outcome(Failure(400, AlreadyDelivered), db)
      else
        var marked := db.(deliveries := MarkDelivered(db.deliveries, id));
        match ConfirmDetails(marked, d.(status := Delivered), DetailsOf(db.deliveryDetails, d.id))
        case Err(e) => Outcome(Failure(ConfirmStatus(e), e), db)
        case Ok(done) =>
          if receiptOk then Outcome(Success, done) else Outcome(Failure(500, ReceiptFailed), db)
  }

  /** The customer with the delivery's phone and the sale of that customer
      with the delivery's figures are both unique, and the sale is `s`. */
  predicate Settled(db: Db, d: Delivery, s: Id) {
    var cs := PhoneMatches(db.customers, d.phone);
    && |cs| == 1
    && var ss := SaleMatches(db.sales, cs[0].id, d.fin);
    && |ss| == 1 && ss[0].id == s
  }

  /** What the two `get_or_create` calls of a confirmation may write: at
      most one new customer, the delivery's, under the key `nextId` had
      before, and at most one new sale, of the customer with the delivery's
      phone and with the delivery's figures, under the last key taken. No
      existing customer or sale is dropped or rewritten. */
  predicate NewRows(before: Db, after: Db, d: Delivery) {
    && (after.customers == before.customers || after.customers == before.customers + [NewCustomer(before.nextId, d)])
    && (after.sales == before.sales
        || (|PhoneMatches(after.customers, d.phone)| == 1 && after.nextId > 0
            && after.sales == before.sales + [Sale(after.nextId - 1, PhoneMatches(after.customers, d.phone)[0].id, d.fin, None)]))
  }

  /** The tables the loop never writes. */
  predicate SameFrame(a: Db, b: Db) {
    && a.deliveries == b.deliveries && a.deliveryDetails == b.deliveryDetails
    && a.purchases == b.purchases && a.items.Keys == b.items.Keys
  }

  /** After a successful `get_or_create`, exactly one customer has the phone:
      the one found, with nothing written, or the one just appended under
      the next free key. */
  lemma CustomerSettles(db: Db, d: Delivery)
    requires GetOrCreateCustomer(db, d).Ok?
    ensures var (c, r) := GetOrCreateCustomer(db, d).value;
            var cs := PhoneMatches(r.customers, d.phone);
            && |cs| == 1 && cs[0].id == c
            && (|PhoneMatches(db.customers, d.phone)| == 1 ==> r == db)
            && (|PhoneMatches(db.customers, d.phone)| == 0 ==>
                  r.customers == db.customers + [NewCustomer(db.nextId, d)] && r.nextId == db.nextId + 1)
            && r.sales == db.sales && r.items == db.items && r.saleDetails == db.saleDetails
            && r.deliveries == db.deliveries && r.deliveryDetails == db.deliveryDetails
            && r.purchases == db.purchases
  {
    if |PhoneMatches(db.customers, d.phone)| == 0 {
      PhoneMatchesAppend(db.customers, NewCustomer(db.nextId, d), d.phone);
    }
  }

  /** After a successful `get_or_create`, exactly one sale matches: the one
      found, with nothing written, or the one just appended under the next
      free key. */
  lemma SaleSettles(db: Db, customer: Id, fin: Financials)
    requires GetOrCreateSale(db, customer, fin).Ok?
    ensures var (s, r) := GetOrCreateSale(db, customer, fin).value;
            var ss := SaleMatches(r.sales, customer, fin);
            && |ss| == 1 && ss[0].id == s
            && (|SaleMatches(db.sales, customer, fin)| == 1 ==> r == db)
            && (|SaleMatches(db.sales, customer, fin)| == 0 ==>
                  r.sales == db.sales + [Sale(db.nextId, customer, fin, None)] && r.nextId == db.nextId + 1)
            && r.customers == db.customers && r.items == db.items && r.saleDetails == db.saleDetails
            && r.deliveries == db.deliveries && r.deliveryDetails == db.deliveryDetails
            && r.purchases == db.purchases
  {
    if |SaleMatches(db.sales, customer, fin)| == 0 {
      SaleMatchesAppend(db.sales, Sale(db.nextId, customer, fin, None), customer, fin);
    }
  }

  /** One successful pass: the line's item lost the line's quantity, one
      sale line was appended, copying the delivery line onto a sale that is
      now the unique match for the delivery. */
  lemma LineEffect(db: Db, d: Delivery, dd: DeliveryDetail)
    requires ConfirmLine(db, d, dd).Ok?
    ensures var r := ConfirmLine(db, d, dd).value;
            && dd.item in db.items && db.items[dd.item].quantity >= dd.quantity
            && r.items == db.items[dd.item := db.items[dd.item].(quantity := db.items[dd.item].quantity - dd.quantity)]
            && |r.saleDetails| == |db.saleDetails| + 1
            && r.saleDetails == db.saleDetails + [CopyDetail(r.saleDetails[|db.saleDetails|].sale, dd)]
            && Settled(r, d, r.saleDetails[|db.saleDetails|].sale)
            && r.deliveries == db.deliveries && r.deliveryDetails == db.deliveryDetails
            && r.purchases == db.purchases
            && NewRows(db, r, d)
  {
    var taken := TakeStock(db, dd).value;
    CustomerSettles(taken, d);
    var (c, withCustomer) := GetOrCreateCustomer(taken, d).value;
    SaleSettles(withCustomer, c, d.fin);
  }

  /** Once settled, a pass finds the same customer and sale and creates
      neither. */
  lemma SettledLine(db: Db, d: Delivery, s: Id, dd: DeliveryDetail)
    requires Settled(db, d, s) && ConfirmLine(db, d, dd).Ok?
    ensures var r := ConfirmLine(db, d, dd).value;
            && r.saleDetails == db.saleDetails + [CopyDetail(s, dd)]
            && r.customers == db.customers && r.sales == db.sales && r.nextId == db.nextId
  {
    var taken := TakeStock(db, dd).value;
    assert GetOrCreateCustomer(taken, d) == Ok((PhoneMatches(db.customers, d.phone)[0].id, taken));
  }

  /** A successful loop over a non-empty list is a successful first pass
      followed by a successful loop over the rest. */
  lemma ConfirmDetailsStep(db: Db, d: Delivery, dds: seq<DeliveryDetail>)
    requires dds != [] && ConfirmDetails(db, d, dds).Ok?
    ensures ConfirmLine(db, d, dds[0]).Ok?
    ensures ConfirmDetails(db, d, dds) == ConfirmDetails(ConfirmLine(db, d, dds[0]).value, d, dds[1..])
  {
  }

  lemma CopyDetailsStep(s: Id, dds: seq<DeliveryDetail>, prefix: seq<SaleDetail>)
    requires dds != []
    ensures prefix + [CopyDetail(s, dds[0])] + CopyDetails(s, dds[1..]) == prefix + CopyDetails(s, dds)
  {
    assert CopyDetails(s, dds) == [CopyDetail(s, dds[0])] + CopyDetails(s, dds[1..]);
  }

  /** Both lookups succeed once the first line has settled them, and then
      neither creates anything. */
  lemma {:induction false} SettledRun(db: Db, d: Delivery, s: Id, dds: seq<DeliveryDetail>)
    requires Settled(db, d, s) && ConfirmDetails(db, d, dds).Ok?
    ensures var r := ConfirmDetails(db, d, dds).value;
            && r.saleDetails == db.saleDetails + CopyDetails(s, dds)
            && r.customers == db.customers && r.sales == db.sales && r.nextId == db.nextId
    decreases |dds|
  {
    if dds == [] {
      assert db.saleDetails + [] == db.saleDetails;
    } else {
      ConfirmDetailsStep(db, d, dds);
      SettledLine(db, d, s, dds[0]);
      SettledRun(ConfirmLine(db, d, dds[0]).value, d, s, dds[1..]);
      CopyDetailsStep(s, dds, db.saleDetails);
    }
  }

  /** Every sale line a successful, non-empty confirmation loop writes
      belongs to one sale: the unique sale of the unique customer with the
      delivery's phone and figures, which may have existed before. Each is
      a copy of the corresponding delivery line. */
  lemma OneSalePerConfirmation(db: Db, d: Delivery, dds: seq<DeliveryDetail>)
    requires dds != [] && ConfirmDetails(db, d, dds).Ok?
    ensures var r := ConfirmDetails(db, d, dds).value;
            && |r.saleDetails| == |db.saleDetails| + |dds|
            && var s := r.saleDetails[|db.saleDetails|].sale;
            && r.saleDetails == db.saleDetails + CopyDetails(s, dds)
            && Settled(r, d, s)
            && NewRows(db, r, d)
  {
    ConfirmDetailsStep(db, d, dds);
    LineEffect(db, d, dds[0]);
    var next := ConfirmLine(db, d, dds[0]).value;
    var s := next.saleDetails[|db.saleDetails|].sale;
    SettledRun(next, d, s, dds[1..]);
    CopyDetailsStep(s, dds, db.saleDetails);
    var r := ConfirmDetails(db, d, dds).value;
    assert r.saleDetails == db.saleDetails + CopyDetails(s, dds);
    assert r.saleDetails[|db.saleDetails|] == CopyDetail(s, dds[0]);
  }

  /** The quantity the delivery lines `dds` take of item `x`. */
  function DetailSum(dds: seq<DeliveryDetail>, x: Id): int {
    if dds == [] then 0 else (if dds[0].item == x then dds[0].quantity else 0) + DetailSum(dds[1..], x)
  }

  /** A successful confirmation loop takes, from every item, exactly the
      total its delivery lines name, and leaves the other tables it does
      not own alone. */
  lemma {:induction false} ConfirmDetailsStock(db: Db, d: Delivery, dds: seq<DeliveryDetail>, x: Id)
    requires ConfirmDetails(db, d, dds).Ok? && x in db.items
    ensures var r := ConfirmDetails(db, d, dds).value;
            && x in r.items
            && r.items[x].quantity == db.items[x].quantity - DetailSum(dds, x)
    decreases |dds|
  {
    if dds != [] {
      ConfirmDetailsStep(db, d, dds);
      LineEffect(db, d, dds[0]);
      ConfirmDetailsStock(ConfirmLine(db, d, dds[0]).value, d, dds[1..], x);
    }
  }

  lemma {:induction false} ConfirmDetailsFrame(db: Db, d: Delivery, dds: seq<DeliveryDetail>)
    requires ConfirmDetails(db, d, dds).Ok?
    ensures SameFrame(ConfirmDetails(db, d, dds).value, db)
    decreases |dds|
  {
    if dds != [] {
      ConfirmDetailsStep(db, d, dds);
      LineEffect(db, d, dds[0]);
      ConfirmDetailsFrame(ConfirmLine(db, d, dds[0]).value, d, dds[1..]);
    }
  }

  lemma TakeStockKeepsValid(db: Db, dd: DeliveryDetail)
    requires Valid(db) && TakeStock(db, dd).Ok?
    ensures Valid(TakeStock(db, dd).value)
  {
  }

  lemma CustomerKeepsValid(db: Db, d: Delivery)
    requires Valid(db) && GetOrCreateCustomer(db, d).Ok?
    ensures var (c, r) := GetOrCreateCustomer(db, d).value; Valid(r) && c < r.nextId
  {
    PhoneMatchesExact(db.customers, d.phone);
  }

  lemma SaleKeepsValid(db: Db, customer: Id, fin: Financials)
    requires Valid(db) && customer < db.nextId && GetOrCreateSale(db, customer, fin).Ok?
    ensures var (s, r) := GetOrCreateSale(db, customer, fin).value; Valid(r) && s < r.nextId
  {
    SaleMatchesExact(db.sales, customer, fin);
  }

  /** One pass keeps the store invariant. */
  lemma LineKeepsValid(db: Db, d: Delivery, dd: DeliveryDetail)
    requires Valid(db) && ConfirmLine(db, d, dd).Ok?
    ensures Valid(ConfirmLine(db, d, dd).value)
  {
    TakeStockKeepsValid(db, dd);
    var taken := TakeStock(db, dd).value;
    CustomerKeepsValid(taken, d);
    var (c, withCustomer) := GetOrCreateCustomer(taken, d).value;
    SaleKeepsValid(withCustomer, c, d.fin);
  }

  /** The confirmation loop keeps the store invariant: the stock check
      keeps every level non-negative, and new customers, sales and sale
      lines take keys below `nextId`. */
  lemma {:induction false} ConfirmDetailsKeepsValid(db: Db, d: Delivery, dds: seq<DeliveryDetail>)
    requires Valid(db) && ConfirmDetails(db, d, dds).Ok?
    ensures Valid(ConfirmDetails(db, d, dds).value)
    decreases |dds|
  {
    if dds != [] {
      ConfirmDetailsStep(db, d, dds);
      LineKeepsValid(db, d, dds[0]);
      ConfirmDetailsKeepsValid(ConfirmLine(db, d, dds[0]).value, d, dds[1..]);
    }
  }

  /** Any failure leaves the database exactly as it was, the status change
      included; an unknown delivery is a 404 and a delivered one a 400. */
  lemma ConfirmFailureRollsBack(db: Db, id: Id, receiptOk: bool)
    ensures var r := ConfirmDelivery(db, id, receiptOk); r.response.Failure? ==> r.db == db
    ensures FindDelivery(db.deliveries, id).None? ==>
              ConfirmDelivery(db, id, receiptOk) == Outcome(Failure(404, DeliveryNotFound), db)
    ensures FindDelivery(db.deliveries, id).Some? && FindDelivery(db.deliveries, id).value.status == Delivered ==>
              ConfirmDelivery(db, id, receiptOk) == Outcome(Failure(400, AlreadyDelivered), db)
  {
  }

  /** A successful confirmation found an undelivered delivery, marked it,
      ran the loop over its lines to success, and rendered the receipt. */
  lemma ConfirmSuccessShape(db: Db, id: Id, receiptOk: bool)
    requires ConfirmDelivery(db, id, receiptOk).response.Success?
    ensures receiptOk && FindDelivery(db.deliveries, id).Some?
    ensures var d := FindDelivery(db.deliveries, id).value;
            var marked := db.(deliveries := MarkDelivered(db.deliveries, id));
            var loop := ConfirmDetails(marked, d.(status := Delivered), DetailsOf(db.deliveryDetails, id));
            && d.status == NotDelivered && loop.Ok?
            && ConfirmDelivery(db, id, receiptOk).db == loop.value
  {
  }

  /** A successful confirmation found the delivery not yet delivered and
      left it delivered. */
  lemma ConfirmMarksDelivered(db: Db, id: Id, receiptOk: bool)
    requires ConfirmDelivery(db, id, receiptOk).response.Success?
    ensures FindDelivery(db.deliveries, id).Some? && FindDelivery(db.deliveries, id).value.status == NotDelivered
    ensures FindDelivery(ConfirmDelivery(db, id, receiptOk).db.deliveries, id)
            == Some(FindDelivery(db.deliveries, id).value.(status := Delivered))
  {
    ConfirmSuccessShape(db, id, receiptOk);
    var d := FindDelivery(db.deliveries, id).value;
    var marked := db.(deliveries := MarkDelivered(db.deliveries, id));
    ConfirmDetailsFrame(marked, d.(status := Delivered), DetailsOf(db.deliveryDetails, id));
    FindAfterMark(db.deliveries, id);
  }

  /** What a successful confirmation did: the delivery is now delivered,
      every item lost exactly what the delivery's lines name, and one sale
      line per delivery line was written, all on one sale of the
      delivery's customer; with no lines, only the status changed. */
  lemma ConfirmedDelivery(db: Db, id: Id, receiptOk: bool)
    requires ConfirmDelivery(db, id, receiptOk).response.Success?
    ensures receiptOk && FindDelivery(db.deliveries, id).Some?
    ensures var r := ConfirmDelivery(db, id, receiptOk).db; var d := FindDelivery(db.deliveries, id).value;
            var dds := DetailsOf(db.deliveryDetails, id);
            && d.status == NotDelivered
            && r.deliveries == MarkDelivered(db.deliveries, id)
            && FindDelivery(r.deliveries, id) == Some(d.(status := Delivered))
            && r.deliveryDetails == db.deliveryDetails && r.purchases == db.purchases
            && r.items.Keys == db.items.Keys
            && (forall x <- db.items :: r.items[x].quantity == db.items[x].quantity - DetailSum(dds, x))
            && (dds == [] ==> r == db.(deliveries := MarkDelivered(db.deliveries, id)))
            && (dds != [] ==> |r.saleDetails| == |db.saleDetails| + |dds|
                              && r.saleDetails == db.saleDetails + CopyDetails(r.saleDetails[|db.saleDetails|].sale, dds)
                              && Settled(r, d, r.saleDetails[|db.saleDetails|].sale)
                              && NewRows(db, r, d))
  {
    ConfirmSuccessShape(db, id, receiptOk);
    var d := FindDelivery(db.deliveries, id).value;
    var dds := DetailsOf(db.deliveryDetails, id);
    var marked := db.(deliveries := MarkDelivered(db.deliveries, id));
    var d' := d.(status := Delivered);
    var r := ConfirmDetails(marked, d', dds).value;
    ConfirmDetailsFrame(marked, d', dds);
    assert r.deliveries == MarkDelivered(db.deliveries, id);
    FindAfterMark(db.deliveries, id);
    forall x <- db.items ensures x in r.items && r.items[x].quantity == db.items[x].quantity - DetailSum(dds, x) {
      ConfirmDetailsStock(marked, d', dds, x);
    }
    if dds != [] {
      OneSalePerConfirmation(marked, d', dds);
    }
  }

  /** Confirmation happens at most once: confirming again what was just
      confirmed is refused with 400 and changes nothing. */
  lemma ConfirmTwiceFails(db: Db, id: Id, receiptOk: bool, again: bool)
    requires ConfirmDelivery(db, id, receiptOk).response.Success?
    ensures var r := ConfirmDelivery(db, id, receiptOk).db;
            ConfirmDelivery(r, id, again) == Outcome(Failure(400, AlreadyDelivered), r)
  {
    ConfirmMarksDelivered(db, id, receiptOk);
  }

  /** Marking a delivery delivered changes no key: every id stays below a
      bound it was below, and ids stay unique. */
  lemma MarkKeepsBound(ds: seq<Delivery>, id: Id, bound: nat)
    requires forall e <- ds :: e.id < bound
    ensures forall e <- MarkDelivered(ds, id) :: e.id < bound
  {
    var r := MarkDelivered(ds, id);
    forall e <- r ensures e.id < bound {
      var k :| 0 <= k < |r| && r[k] == e;
      assert ds[k] in ds;
    }
  }

  lemma MarkKeepsUnique(ds: seq<Delivery>, id: Id)
    requires forall a <- ds, b <- ds :: a.id == b.id ==> a == b
    ensures forall a <- MarkDelivered(ds, id), b <- MarkDelivered(ds, id) :: a.id == b.id ==> a == b
  {
    var r := MarkDelivered(ds, id);
    forall a <- r, b <- r | a.id == b.id ensures a == b {
      var i :| 0 <= i < |r| && r[i] == a;
      var j :| 0 <= j < |r| && r[j] == b;
      assert ds[i] in ds && ds[j] in ds;
    }
  }

  /** Marking a delivery delivered keeps the invariant. */
  lemma MarkKeepsValid(db: Db, id: Id)
    requires Valid(db)
    ensures Valid(db.(deliveries := MarkDelivered(db.deliveries, id)))
  {
    MarkKeepsBound(db.deliveries, id, db.nextId);
    MarkKeepsUnique(db.deliveries, id);
  }

  /** Confirmation keeps the store invariant. */
  lemma ConfirmKeepsValid(db: Db, id: Id, receiptOk: bool)
    requires Valid(db)
    ensures Valid(ConfirmDelivery(db, id, receiptOk).db)
  {
    var r := ConfirmDelivery(db, id, receiptOk);
    if r.response.Success? {
      ConfirmSuccessShape(db, id, receiptOk);
      var d := FindDelivery(db.deliveries, id).value;
      var marked := db.(deliveries := MarkDelivered(db.deliveries, id));
      MarkKeepsValid(db, id);
      ConfirmDetailsKeepsValid(marked, d.(status := Delivered), DetailsOf(db.deliveryDetails, id));
    }
  }

  /** Confirmation never overdraws: when the delivery's lines together take
      more of an item than it holds (as a booking may allow, see
      `OverbookingAccepted`), the confirmation fails and writes nothing,
      whether or not the receipt would render. */
  lemma OverdrawnConfirmationFails(db: Db, id: Id, receiptOk: bool, x: Id)
    requires Valid(db) && x in db.items
    requires DetailSum(DetailsOf(db.deliveryDetails, id), x) > db.items[x].quantity
    ensures ConfirmDelivery(db, id, receiptOk).response.Failure?
    ensures ConfirmDelivery(db, id, receiptOk).db == db
  {
    if ConfirmDelivery(db, id, true).response.Success? {
      ConfirmSuccessShape(db, id, true);
      var d := FindDelivery(db.deliveries, id).value;
      var marked := db.(deliveries := MarkDelivered(db.deliveries, id));
      ConfirmDetailsStock(marked, d.(status := Delivered), DetailsOf(db.deliveryDetails, id), x);
      ConfirmKeepsValid(db, id, true);
      assert false;
    }
  }
}
