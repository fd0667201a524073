# Stock reconciliation of a Django point-of-sale store, in Dafny

This project models how the point-of-sale application keeps its stock
levels (`Item.quantity`) in step with its purchases, sales and deliveries.
It also proves what those flows promise.

- **Purchases.** The `pre_save`/`post_save` signal pair adds a purchase's
  quantity to its item once, when the purchase becomes shipped (`'S'`). The
  purchase create and update views set defaults before the save.
- **Sales.** `SaleCreateView` validates a JSON payload. Inside one
  transaction it then creates the sale, and for each line it checks the
  item's current stock, writes a sale line and takes the quantity off.
- **Deliveries.** A delivery has two phases.
  - Booking (`DeliveryCreateView`) checks every line against the stock and
    changes no stock.
  - Confirmation (`update_delivery_status`) marks the delivery delivered
    and takes each line off the stock. It finds or creates a customer by
    phone and a sale by its six financial fields, and copies each delivery
    line into a sale line. All of this runs in one transaction.
- **Small pure pieces.**
  - The `q` search of the item and delivery lists.
  - The low-stock list.
  - The customer-name split.
  - `Delivery.sum_products` and `Item.to_json`.
  - The model defaults and deletion rules.
  - The admin's read-only fields.

Layout. Each view is a function from a database value (`Models.Db`) to an
`Outcome`, which is the JSON response (its status code and the failure)
together with the database after the view. `transaction.atomic()` is
all-or-nothing: on every failure inside it, the function returns the
database it was given. The lemmas about these functions are the
properties. `store.dfy` holds a `Store` class whose fields are the tables.
Its methods run the same views step by step: loops over the payload
lines, scans for `get_or_create`, in-place updates of the stock and a
rollback. Each method is proved to leave exactly the tables, and give
exactly the response, that the matching function gives. So every lemma
about the functions holds for the imperative store too.

The store invariant `Models.Valid` says that no stock level and no
delivery line is negative, every key in use is below `nextId`, every item
and purchase is stored under its own id, and no two customers, sales or
deliveries share an id. Every view keeps it.

Files:

- `text.dfy`: Python's `str.split()`, `' '.join` and the case-insensitive
  `icontains` test.
- `models.dfy`: records, the store invariant `Valid`, responses, model
  defaults, `sum_products`, `to_json` and the deletion rules.
- `purchases.dfy`: signals and purchase views.
- `sales.dfy`: sale creation.
- `deliveries.dfy`: booking, name split and confirmation.
- `search.dfy`: search filters and low-stock list.
- `admin.dfy`: read-only fields.
- `store.dfy`: the imperative store.

Three behaviours of the code worth stating on their own:

- **Purchase edits never move stock.** `PurchaseForm` edits only the item
  and the quantity, so the update view cannot change a purchase's status
  and its save never meets the pending-to-shipped step of the signal. A
  quantity or item edit of a received purchase leaves every stock level
  as it was (`Purchases.UpdateViaViewKeepsStock`). A purchase becomes
  shipped through these views only at creation, where it is always stored
  shipped.
- **Confirmation order.** The status is saved first inside the
  transaction, and the receipt is rendered inside it too. So a receipt
  failure rolls the whole confirmation back and answers an error.
- **Receipt failures after a commit.** A sale or a booking commits before
  its receipt is rendered. A receipt that then fails answers an error
  (400 for a `ValueError` or `TypeError`, 500 for any other exception)
  while the data stays committed. The model answers 500 in every case;
  see "## Left out".

## Model

| member | source | states |
|---|---|---|
| Purchases.OldStatus | transactions/signals.py:11-23 | the cached status is None exactly for a purchase not yet stored, and otherwise the status stored before this save |
| Purchases.CreateShippedAddsStock | transactions/signals.py:36-39 | inserting a shipped purchase adds exactly its quantity to its item |
| Purchases.CreatePendingKeepsStock | transactions/signals.py:33-44 | inserting a pending purchase changes no stock level |
| Purchases.PendingToShippedAddsStock | transactions/signals.py:41-44 | updating a stored pending purchase to shipped adds exactly its quantity |
| Purchases.OtherUpdatesKeepStock | transactions/signals.py:36-44 | every other update (S to S, S to P, P to P) changes no stock level |
| Purchases.SaveTwiceCountsOnce | transactions/signals.py:36-44 | saving the same purchase again never changes the stock: a purchase is counted at most once |
| Purchases.PendingThenShippedMatchesShipped | transactions/signals.py:36-44 | inserting as pending and then updating to shipped ends in the same database as inserting as shipped |
| Purchases.SaveTouchesOnlyOwnItem | transactions/signals.py:38-44 | only the purchase's own item changes, and only in its quantity; every other item is unchanged and the purchase row is stored |
| Purchases.SaveKeepsValid | transactions/signals.py:26-44 | a save with a non-negative quantity keeps the store invariant |
| Purchases.PrepareCreate | transactions/views.py:434-448 | the new purchase carries the form's item and quantity under the given key, is shipped, delivered now, priced at the item's purchase price, and has the item's vendor (null when the item has none) |
| Purchases.PrepareUpdate | transactions/views.py:466-476 | the stored purchase with only the form's item and quantity replaced, re-priced from the item; its status and delivery date stay the stored ones; a vendor already set is kept and an empty one takes the item's |
| Purchases.CreateViaViewAddsStock | transactions/views.py:434-448 | a purchase created through the view is received at once: its item gains exactly its quantity, no other item changes, it is stored as shipped at the purchase price, and the invariant holds |
| Purchases.UpdateViaViewKeepsStock | transactions/views.py:466-476 | an update through the view never changes any stock level, whatever the new item or quantity; it keeps the stored status, date and a vendor already set, touches no other purchase, and keeps the invariant |
| Store.Store.SavePurchase | transactions/signals.py:11-44 | the in-place save with both signal handlers leaves exactly the tables `Purchases.SavePurchase` gives, and keeps the invariant |
| Store.Store.CreatePurchase | transactions/views.py:434-448 | the create view and its save leave exactly `Purchases.CreatePurchase`, and the new key is the next free one |
| Store.Store.UpdatePurchase | transactions/views.py:466-476 | the update view on the stored purchase and its save leave exactly `Purchases.UpdatePurchase` |
| Sales.FirstMissingField | transactions/views.py:268-274 | the reported key is one of the six required keys, the payload lacks it, and it carries every key the view checks before it; nothing is reported exactly when all six are present |
| Sales.FindCustomer | transactions/views.py:278 | the customer found is stored under the id; None means no customer has that id |
| Sales.LineDetails | transactions/views.py:313-320 | one sale line per payload line, copying item, price, quantity and the client's `total_item` as `total_detail` |
| Sales.MissingFieldWritesNothing | transactions/views.py:268-274 | a missing required key answers 400 and writes nothing |
| Sales.BadCustomerOrSavWritesNothing | transactions/views.py:278-285 | an unknown customer answers 400 and a missing `has_sav` answers 500, both before anything is written (see also lines 351-355, 371-379 of the same file) |
| Sales.IncompleteLineFails | transactions/views.py:301-307 | a line missing one of its four keys makes the loop fail, wherever it stands |
| Sales.FailureWritesNothing | transactions/views.py:291-325 | a sale failing for any reason but the receipt leaves the database exactly as it was; an incomplete line anywhere answers 400, and a non-list `items` (with a known customer and `has_sav`) answers 400 `ItemsNotList` |
| Sales.SaleLinesEffect | transactions/views.py:301-325 | a successful loop saw only complete lines of known items, appended exactly their sale lines, and lowered each item by the total its lines asked |
| Sales.SaleLinesKeepStock | transactions/views.py:309-325 | each line is checked against the stock the earlier lines left, so no stock level goes below zero |
| Sales.SaleLinesSucceedIff | transactions/views.py:309-311 | for complete lines of known items with non-negative quantities, the loop succeeds iff no item is asked for more than it holds in total |
| Sales.CommittedSale | transactions/views.py:288-325 | a committed sale adds one sale with the payload's snapshot and one line per payload line, lowers each item by its lines' total, and touches nothing else |
| Sales.CreateSaleKeepsValid | transactions/views.py:252-381 | sale creation keeps the store invariant, whatever the payload |
| Sales.SellFourOfTen | transactions/views.py:309-325 | ten in stock and a sale of four: success, one sale, one line, six left |
| Sales.SellFiveOfThree | transactions/views.py:309-311 | three in stock and a sale of five: 400 naming the item, nothing written (see also lines 361-365 of the same file) |
| Store.Store.SellLines | transactions/views.py:301-325 | the staged line loop answers exactly `Sales.SaleLines` over the current stock and sale lines |
| Store.Store.SellAndCommit | transactions/views.py:288-335 | the transaction and the receipt leave exactly the tables `Sales.SellAndCommit` gives |
| Store.Store.CreateSale | transactions/views.py:252-381 | the imperative view answers and leaves exactly what `Sales.CreateSale` gives, and keeps the invariant |
| Deliveries.FirstMissingKey | store/views.py:384-391 | the reported key is one of the nine required keys, the payload lacks it, and it carries every key the view checks before it; nothing is reported exactly when all nine are present |
| Deliveries.BookedDelivery | store/views.py:393-406 | the booked delivery takes the next key and is NOT_DELIVERED; customer name, phone, location, delivery date, sub total, grand total, amount paid and amount change are the payload's; tax amount and percentage default to 0 |
| Deliveries.BookedDetails | store/views.py:435-442 | one delivery line per payload line, copying item, price, quantity and `total_item` |
| Deliveries.BookingMissingKeyWritesNothing | store/views.py:384-391 | a missing key answers 400 and writes nothing |
| Deliveries.BookingKeepsStock | store/views.py:416-443 | booking never changes a stock level, and a failure other than the receipt writes nothing |
| Deliveries.BookLinesEffect | store/views.py:421-442 | a successful booking loop saw complete lines of known items, each between zero and the item's unchanged stock, and appended exactly their delivery lines |
| Deliveries.BookLinesSucceedIff | store/views.py:429-433 | for complete lines of known items, booking succeeds iff every line on its own asks between zero and the item's stock (see also line 171 of the same file) |
| Deliveries.CommittedBooking | store/views.py:411-443 | a committed booking adds one NOT_DELIVERED delivery with one line per payload line and changes no stock, sale or sale line |
| Deliveries.BookedSumProducts | store/models.py:145-149 | the `sum_products` of a freshly booked delivery is the quantity its payload asked for |
| Deliveries.CreateDeliveryKeepsValid | store/views.py:371-494 | booking keeps the store invariant, in particular that no delivery line is negative |
| Deliveries.OverbookingAccepted | store/views.py:429-433 | three in stock and two lines of two: the booking is accepted, though the lines total more than the stock |
| Store.Store.BookLines | store/views.py:421-442 | the booking loop answers exactly `Deliveries.BookLines` over the current stock |
| Store.Store.BookAndCommit | store/views.py:411-453 | the transaction and the receipt leave exactly the tables `Deliveries.BookAndCommit` gives |
| Store.Store.CreateDelivery | store/views.py:371-494 | the imperative view answers and leaves exactly what `Deliveries.CreateDelivery` gives, and keeps the invariant |
| Deliveries.NameSplit | store/views.py:640-647 | the first name is the first token, or the whole name when it has none; splitting the last name gives back the other tokens |
| Text.TokensKeepText | store/views.py:642-643 | splitting loses only whitespace: the tokens glued together are the name's non-space characters |
| Text.SplitJoin | store/views.py:643 | joining tokens with single spaces and splitting again gives back the tokens |
| Deliveries.FindDelivery | store/views.py:610 | the delivery found carries the id; None means no delivery has it |
| Deliveries.MarkDelivered | store/views.py:621-622 | the delivery with the id becomes DELIVERED and every other row is kept |
| Deliveries.NewCustomer | store/views.py:640-647 | the new customer takes the next key, the delivery's phone and location, and the first and last name split from the delivery's customer name |
| Deliveries.CustomerSettles | store/views.py:640-647 | afterwards exactly one customer has the phone; a found customer means nothing was written, and otherwise exactly the delivery's new customer was appended under the next key; no other table changes |
| Deliveries.SaleSettles | store/views.py:650-659 | afterwards exactly one sale matches; a found sale means nothing was written, and otherwise exactly one new sale of that customer with those figures was appended under the next key; no other table changes |
| Deliveries.LineEffect | store/views.py:624-668 | one pass takes the line's quantity off its item after checking the stock, appends one copy of the line to the settled sale, and otherwise writes at most the delivery's new customer and one new sale of that customer with the delivery's figures |
| Deliveries.OneSalePerConfirmation | store/views.py:637-668 | all sale lines a confirmation writes go to one sale, the unique match of the delivery's customer and figures, possibly older; each copies its delivery line; at most one customer and one sale were added and none was dropped or rewritten |
| Deliveries.ConfirmDetailsStock | store/views.py:625-634 | a successful loop lowers every item by exactly the total its delivery lines name |
| Deliveries.ConfirmDetailsKeepsValid | store/views.py:624-668 | the confirmation loop keeps the store invariant |
| Deliveries.ConfirmFailureRollsBack | store/views.py:610-622 | every failure leaves the database as it was, the status change included; unknown is 404, already delivered is 400 (see also lines 684-701 of the same file) |
| Deliveries.ConfirmMarksDelivered | store/views.py:612-622 | a successful confirmation found the delivery NOT_DELIVERED and left it DELIVERED |
| Deliveries.ConfirmedDelivery | store/views.py:604-681 | a successful confirmation marks the delivery, lowers each item by its lines' total, writes one sale line per delivery line on one settled sale, adds at most the delivery's new customer and one new sale and keeps every other customer and sale; with no lines it changes only the status |
| Deliveries.ConfirmTwiceFails | store/views.py:612-616 | confirming again what was just confirmed answers 400 and changes nothing |
| Deliveries.ConfirmKeepsValid | store/views.py:604-701 | confirmation keeps the store invariant |
| Deliveries.OverdrawnConfirmationFails | store/views.py:628-630 | when a delivery's lines together ask more of an item than it holds, confirmation fails and writes nothing |
| Store.Store.GetOrCreateCustomer | store/views.py:640-647 | the scan and the optional insert answer and leave exactly what `Deliveries.GetOrCreateCustomer` gives |
| Store.Store.GetOrCreateSale | store/views.py:650-659 | the scan and the optional insert answer and leave exactly what `Deliveries.GetOrCreateSale` gives |
| Store.Store.TakeStock | store/views.py:625-634 | the in-place stock step leaves exactly `Deliveries.TakeStock`, and nothing changes on a refusal |
| Store.Store.ConfirmLine | store/views.py:624-668 | one in-place pass leaves exactly `Deliveries.ConfirmLine` when it succeeds, and reports its error otherwise |
| Store.Store.ConfirmLines | store/views.py:624-668 | the in-place loop leaves exactly `Deliveries.ConfirmDetails` when it succeeds, and reports its error otherwise |
| Store.Store.ConfirmDelivery | store/views.py:604-701 | the imperative view, with its rollback, answers and leaves exactly what `Deliveries.ConfirmDelivery` gives, and keeps the invariant |
| Store.Store.Rollback | store/views.py:619 | leaving the transaction by an exception restores every table |
| Search.SearchMembers | store/views.py:218-226 | a row is kept iff it is listed and, when there is a query, its key contains every token of the query, ignoring case (see also lines 345-354 of the same file) |
| Search.NoTokensNoFilter | store/views.py:218-219 | without a query, or with one that has no tokens, nothing is filtered |
| Search.ExtraTokenNarrows | store/views.py:222-224 | tokens are combined with `and`: an extra token keeps exactly the rows of the narrower result that also match it |
| Search.WhitespaceQueryFails | store/views.py:219-224 | a whitespace-only query makes the view as written fail, where the intended search lists every row |
| Search.AsWrittenDiffersOnlyOnBlankQueries | store/views.py:218-226 | the view as written fails exactly on non-empty queries without tokens, and otherwise lists what the intended search lists |
| Search.ItemSearch | store/views.py:215-226 | as the view answers: a server error exactly for a non-empty query without tokens; otherwise an item is listed iff it is in the list and its name contains every token, ignoring case |
| Search.DeliverySearch | store/views.py:342-354 | as the view answers: a server error exactly for a non-empty query without tokens; otherwise a delivery is listed iff it is in the list and its customer name contains every token, ignoring case |
| Search.LowStockSpec | store/views.py:201-202 | the low-stock list is ordered by quantity, holds exactly the items with at most five in stock, and each as often as listed |
| Models.NewItem | store/models.py:47-49 | a new item holds no stock and has zero prices |
| Models.AddNewItemKeepsValid | store/models.py:47 | adding a fresh item keeps the store invariant |
| Models.DetailsOf | store/models.py:156-161 | a delivery's lines are exactly the stored lines pointing at it |
| Models.SumProductsBounds | store/models.py:145-149 | `sum_products` is never negative in a valid store, and is 0 for a delivery without lines (see also line 171 of the same file) |
| Models.ToJson | store/models.py:66-73 | `to_json` gives quantity 1, total_product 0, text = name, the item's id and its category's name |
| Models.ToJsonIgnoresStock | store/models.py:66-73 | items that differ only in stock serialise alike |
| Models.DeleteDelivery | store/models.py:156-161 | deleting a delivery removes it and all its lines, keeps every other delivery and every other line, and leaves the stock, customers, sales, sale lines and purchases unchanged |
| Models.DeleteItem | store/models.py:162-166 | deleting an item is refused exactly when a delivery line still names it; otherwise only that item is removed and every other item and table is unchanged |
| Models.DeletesKeepValid | store/models.py:156-166 | deleting a delivery, and any item deletion that goes through, keep the store invariant; no delivery line is left naming a deleted item |
| Admin.ReadOnlyFields | store/admin.py:79-86 | the class default is always included; for no object or an undelivered delivery the fields are exactly `date_added`, and for a delivered one `date_added` and the five locked financial fields |
| Admin.ReadOnlyMembers | store/admin.py:83-85 | a field is read-only iff it is `date_added` or (once delivered) one of the five locked fields; `tax_percentage` stays editable |
| Admin.ConfirmationLocksFinancials | store/admin.py:84-85 | a delivery the confirmation view has just confirmed goes from only `date_added` read-only to the financial figures locked too |
| Admin.TotalDetailReadOnly | store/admin.py:44-45 | `total_detail` is the only read-only field, both inline and on a delivery line's own page (see also line 97 of the same file) |

## Left out

- Money is a `real` that is only copied. The model does not cover parsing
  money with `float(...)` or the decimal rounding of `DecimalField`.
- JSON decoding errors, lines that are not objects, and values that
  `int(...)` or `float(...)` reject are not modelled. Each of these answers
  400 in the views. A line is either complete or lacks a key.
- Request checks (`is_ajax`, method) and the HTML form pages are left out.
- Timestamps are left out: `date_added` and `created_at`. The delivery date
  is an opaque integer.
- `customer_name`, `phone_number` and `location` are never null here. Phone
  numbers are compared as plain strings, without `PhoneNumberField`
  normalisation.
- Case-insensitive matching folds only ASCII letters. The database's full
  Unicode case folding is not modelled.
- transactions/models.py is not part of this model, so two things are
  unknown:
  - Any constraint on `SaleDetail.quantity`. A sale line with a negative
    quantity passes the stock check and is modelled as raising the stock.
  - The default of `Sale.has_sav`. Sales created during confirmation carry
    no value for it.
- Receipt rendering and printing (transactions/utils.py) are a boolean
  `receiptOk` that says whether `generate_pdf` succeeds.
  `print_document` is taken never to fail.
- Concurrency, row locking and races between requests are left out. The
  code has none of them.
- The dashboard, the Excel exports, the receipt views, the list, update
  and delete views, accounts and forms are left out. They do not take part
  in stock reconciliation.
- The code has no stock reversal when a purchase is deleted, so none is
  modelled.
- Search: the base querysets' order (`Meta.ordering`) is taken as the
  order of the input sequence.
- Low-stock list: items with equal quantity keep their input order. The
  database leaves that order unspecified.
- Purchases.SavePurchase: requires the purchase's item to exist, which the
  foreign key guarantees. A purchase whose item was deleted is not
  modelled.
- Store.Store.ConfirmLine, Store.Store.ConfirmLines: on an error each
  states only the error. Neither states the partial writes left in the
  tables, which `Store.Store.ConfirmDelivery` always rolls back.
- Purchase views: an unknown purchase key (404 from `get_object`) and an
  item the form's choice field rejects (the form is shown again, nothing
  is written) are not modelled; the update and create functions require
  an existing purchase and item. The default of `Purchase.vendor` is
  taken to be null, since transactions/models.py is not part of this
  model.
- Integers are unbounded. `IntegerField` and `PositiveIntegerField` hold
  32-bit values on most database backends, and a save beyond that bound
  raises. The model never refuses a quantity or a key for its size.
- `DeliveryDetail` has no `Meta.ordering`, so the order in which the
  confirmation reads a delivery's lines is up to the database. The model
  reads them in table order. That order decides which error a failing
  confirmation reports and the order of the copied sale lines; the stock
  totals and the success of a confirmation do not depend on it.
- Sales.SellAndCommit: a receipt that fails after the commit always
  answers 500 here. The view answers 400 when `generate_pdf` raises a
  `ValueError` or `TypeError`, and 500 for any other exception.
- Deliveries.BookAndCommit: a receipt that fails after the commit always
  answers 500 here; the view answers 400 for a `ValueError` or
  `TypeError`.
- Deliveries.ConfirmDelivery: a receipt that fails inside the transaction
  always answers 500 here; the view answers 400 for a `ValueError`. The
  rollback is the same either way.
- Models.DeleteItem: only delivery lines are checked as referrers. Sale
  lines and purchases also name items, through transactions/models.py,
  which is not part of this model.
- Customer and sale keys share one counter, `nextId`, with deliveries and
  purchases. The real tables number rows independently, and a rolled-back
  transaction may still use up a key.

## Findings

| source | as written | input that shows it | evidently intended | confidence | as-written member | corrected member |
|---|---|---|---|---|---|---|
| store/views.py:218-226 (and 345-354) | a non-empty `q` is split and the lookups are folded with `reduce(operator.and_, ...)` with no initial value; a query of only whitespace splits into no tokens, so `reduce` raises `TypeError` and the page fails | `q=" "` | a query without tokens filters nothing, as an absent or empty `q` does | not executed | Search.SearchAsWritten (shown by Search.WhitespaceQueryFails) | Search.Search (Search.NoTokensNoFilter, Search.SearchMembers) |
