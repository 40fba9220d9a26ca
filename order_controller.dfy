/**
 * The order workflow of `backend/controllers/orderController.js`: creating an
 * order with its lines (and the compensating delete), changing an order's
 * status, and listing orders newest first.
 */
module OrderController {

  import opened Wrappers
  import opened Seqs
  import opened Sorting
  import opened Text
  import opened RecordStore

  /** One entry of the request's `items`. */
  datatype ItemInput = ItemInput(productId: Id, quantity: int, priceAtPurchase: int)

  /**
   * The body of `POST /api/v1/orders`. `items == None` is a missing or
   * non-array value; an empty string is a missing, `null` or empty field.
   */
  datatype OrderRequest = OrderRequest(
    items: Option<seq<ItemInput>>,
    address: string, city: string, state: string, zipCode: string, country: string, phone: string)

  /** The `order` object of the 201 response. */
  datatype OrderSummary = OrderSummary(id: Id, totalAmount: int, status: string, createdAt: int)

  datatype CreateResponse =
    | Created(order: OrderSummary)          // 201
    | BadRequest(error: string)             // 400
    | ServerError(error: string)            // 500

  /** Which store calls of one `createOrder` fail. */
  datatype CreateFaults = CreateFaults(
    orderInsertFails: bool, itemsInsertFails: bool, rollbackDeleteFails: bool,
    cartLookupFails: bool, cartClearFails: bool)

  const ItemsRequired := "Order items are required"
  const ShippingRequired := "All shipping information is required"

  /** The two checks made before anything is written, in their order. */
  function RequestError(req: OrderRequest): (r: Option<string>)
    ensures r == Some(ItemsRequired) <==> req.items.None? || req.items.value == []
    ensures r == Some(ShippingRequired) <==>
      req.items.Some? && req.items.value != [] &&
      (req.address == "" || req.city == "" || req.state == "" || req.zipCode == "" || req.phone == "")
    ensures r.None? || r == Some(ItemsRequired) || r == Some(ShippingRequired)
  {
    if req.items.None? || req.items.value == [] then Some(ItemsRequired)
    else if req.address == "" || req.city == "" || req.state == "" || req.zipCode == "" || req.phone == "" then
      Some(ShippingRequired)
    else None
  }

  /** `items.reduce((total, item) => total + price_at_purchase * quantity, 0)`. */
  function Total(items: seq<ItemInput>): int {
    if items == [] then 0
    else Total(items[..|items| - 1]) + items[|items| - 1].priceAtPurchase * items[|items| - 1].quantity
  }

  lemma {:induction false} TotalAppend(a: seq<ItemInput>, b: seq<ItemInput>)
    ensures Total(a + b) == Total(a) + Total(b)
    decreases |b|
  {
    if b == [] {
      assert a + b == a;
    } else {
      assert (a + b)[..|a + b| - 1] == a + b[..|b| - 1];
      TotalAppend(a, b[..|b| - 1]);
    }
  }

  /** The stored shipping fields; an absent country becomes 'India'. */
  function ShippingOf(req: OrderRequest): (s: Shipping)
    ensures s.country == (if req.country == "" then "India" else req.country)
    ensures s.address == req.address && s.city == req.city && s.state == req.state
    ensures s.zipCode == req.zipCode && s.phone == req.phone
  {
    Shipping(req.address, req.city, req.state, req.zipCode,
             if req.country == "" then "India" else req.country, req.phone)
  }

  /** `items.map(...)`: one `order_items` row per item, with ids from `firstId` on. */
  function OrderLinesFor(orderId: Id, firstId: Id, items: seq<ItemInput>): (lines: seq<OrderLine>)
    ensures |lines| == |items|
    ensures forall k :: 0 <= k < |items| ==>
      lines[k] == OrderLine(firstId + k, orderId, items[k].productId, items[k].quantity, items[k].priceAtPurchase)
  {
    seq(|items|, k requires 0 <= k < |items| =>
      OrderLine(firstId + k, orderId, items[k].productId, items[k].quantity, items[k].priceAtPurchase))
  }

  /** The sum of price × quantity over order lines. */
  function LinesTotal(lines: seq<OrderLine>): int {
    if lines == [] then 0
    else LinesTotal(lines[..|lines| - 1]) + lines[|lines| - 1].priceAtPurchase * lines[|lines| - 1].quantity
  }

  /** The order's total is the sum over the lines created for it. */
  lemma {:induction false} LinesTotalOfOrderLines(orderId: Id, firstId: Id, items: seq<ItemInput>)
    ensures LinesTotal(OrderLinesFor(orderId, firstId, items)) == Total(items)
    decreases |items|
  {
    if items != [] {
      var init := items[..|items| - 1];
      assert OrderLinesFor(orderId, firstId, items)[..|items| - 1] == OrderLinesFor(orderId, firstId, init);
      LinesTotalOfOrderLines(orderId, firstId, init);
    }
  }

  /** The order lines that belong to order `id`. */
  function LinesOf(lines: seq<OrderLine>, id: Id): seq<OrderLine> {
    Filter(lines, (l: OrderLine) => l.orderId == id)
  }

  /** The total of every order equals the sum over its lines. */
  ghost predicate TotalsMatch(orders: seq<Order>, lines: seq<OrderLine>) {
    forall i :: 0 <= i < |orders| ==> orders[i].totalAmount == LinesTotal(LinesOf(lines, orders[i].id))
  }

  ghost predicate TotalsMatchLines(db: Db)
    reads db
  {
    TotalsMatch(db.orders, db.orderLines)
  }

  /** The request is past both checks; it then has a non-empty item list. */
  predicate PassesChecks(req: OrderRequest)
    ensures PassesChecks(req) ==> req.items.Some? && req.items.value != []
  {
    RequestError(req).None?
  }

  /** The `orders` row `createOrder` inserts, with the id the store generates. */
  function NewOrder(id: Id, userId: Id, req: OrderRequest, now: int): (o: Order)
    requires req.items.Some?
    ensures o.totalAmount == Total(req.items.value) && o.status == "pending_payment"
    ensures o.shipping == ShippingOf(req) && o.id == id && o.userId == userId && o.createdAt == now
  {
    Order(id, userId, Total(req.items.value), "pending_payment", ShippingOf(req), now)
  }

  function Summary(o: Order): OrderSummary {
    OrderSummary(o.id, o.totalAmount, o.status, o.createdAt)
  }

  /**
   * `POST /api/v1/orders`: validate, compute the total, insert the order, insert
   * its lines (deleting the order again if that fails), then clear the cart.
   */
  method CreateOrder(db: Db, userId: Id, req: OrderRequest, now: int, faults: CreateFaults)
    returns (res: CreateResponse)
    requires db.Valid()
    modifies db
    ensures db.Valid()
    ensures db.products == old(db.products) && db.carts == old(db.carts) && db.reviews == old(db.reviews)
    ensures RequestError(req).Some? ==> res == BadRequest(RequestError(req).value) && unchanged(db)
    ensures RequestError(req).None? && faults.orderInsertFails ==>
      res == ServerError("Failed to create order") && unchanged(db)
    ensures PassesChecks(req) && !faults.orderInsertFails && faults.itemsInsertFails ==>
      && res == ServerError("Failed to create order items")
      && db.orders == (if faults.rollbackDeleteFails then old(db.orders) + [NewOrder(old(db.nextId), userId, req, now)]
                       else old(db.orders))
      && db.orderLines == old(db.orderLines) && db.cartLines == old(db.cartLines)
      && db.nextId == old(db.nextId) + 1
    ensures PassesChecks(req) && !faults.orderInsertFails && !faults.itemsInsertFails ==>
      && db.orders == old(db.orders) + [NewOrder(old(db.nextId), userId, req, now)]
      && db.orderLines == old(db.orderLines) + OrderLinesFor(old(db.nextId), old(db.nextId) + 1, req.items.value)
      && db.nextId == old(db.nextId) + 1 + |req.items.value|
    ensures PassesChecks(req) && !faults.orderInsertFails && !faults.itemsInsertFails &&
            (faults.cartLookupFails || UserCart(old(db.carts), userId).None?) ==>
      res == ServerError("Internal server error") && db.cartLines == old(db.cartLines)
    ensures PassesChecks(req) && !faults.orderInsertFails && !faults.itemsInsertFails &&
            !faults.cartLookupFails && UserCart(old(db.carts), userId).Some? ==>
      && res == Created(Summary(NewOrder(old(db.nextId), userId, req, now)))
      && db.cartLines == (if faults.cartClearFails then old(db.cartLines)
                          else WithoutCart(old(db.cartLines), UserCart(old(db.carts), userId).value.id))
    ensures old(TotalsMatchLines(db)) &&
            !(PassesChecks(req) && !faults.orderInsertFails && faults.itemsInsertFails && faults.rollbackDeleteFails) ==>
      TotalsMatchLines(db)
  {
    var err := RequestError(req);
    if err.Some? {
      return BadRequest(err.value);
    }
    if faults.orderInsertFails {
      return ServerError("Failed to create order");
    }
    var order, stored := PersistOrder(db, userId, req.items.value, ShippingOf(req), now,
                                      faults.itemsInsertFails, faults.rollbackDeleteFails);
    if !stored {
      return ServerError("Failed to create order items");
    }
    var cart := UserCart(db.carts, userId);
    if faults.cartLookupFails || cart.None? {
      // `.data.id` on a missing row throws; the outer `catch` answers 500.
      return ServerError("Internal server error");
    }
    if !faults.cartClearFails {
      db.DeleteCartLines(cart.value.id);
    }
    return Created(Summary(order));
  }

  /**
   * The two writes of `createOrder`: the order row, then its lines; when the
   * lines cannot be stored the order is deleted again, unless that delete fails too.
   */
  method PersistOrder(db: Db, userId: Id, items: seq<ItemInput>, shipping: Shipping, now: int,
                      itemsInsertFails: bool, rollbackDeleteFails: bool)
    returns (order: Order, stored: bool)
    requires db.Valid()
    modifies db`orders, db`orderLines, db`nextId
    ensures db.Valid()
    ensures order == Order(old(db.nextId), userId, Total(items), "pending_payment", shipping, now)
    ensures stored == !itemsInsertFails
    ensures stored ==>
      && db.orders == old(db.orders) + [order]
      && db.orderLines == old(db.orderLines) + OrderLinesFor(old(db.nextId), old(db.nextId) + 1, items)
      && db.nextId == old(db.nextId) + 1 + |items|
    ensures !stored ==>
      && db.orders == (if rollbackDeleteFails then old(db.orders) + [order] else old(db.orders))
      && db.orderLines == old(db.orderLines)
      && db.nextId == old(db.nextId) + 1
    ensures old(TotalsMatchLines(db)) && !(!stored && rollbackDeleteFails) ==> TotalsMatchLines(db)
  {
    ghost var before := db.orders;
    ghost var linesBefore := db.orderLines;
    ghost var totalsHeld := TotalsMatchLines(db);
    order := db.InsertOrder(userId, Total(items), "pending_payment", shipping, now);
    if itemsInsertFails {
      if !rollbackDeleteFails {
        db.DeleteOrder(order.id);
        FreshOrderDeleted(before, order);
        assert db.orders == before;
      }
      return order, false;
    }
    var lines := OrderLinesFor(order.id, order.id + 1, items);
    db.InsertOrderLines(lines);
    assert db.orders == before + [order] && db.orderLines == linesBefore + lines;
    if totalsHeld {
      NewOrderKeepsTotals(before, linesBefore, order, items);
    }
    return order, true;
  }

  /** The compensating delete removes the new order and nothing else: older ids are smaller. */
  lemma FreshOrderDeleted(before: seq<Order>, order: Order)
    requires forall i :: 0 <= i < |before| ==> before[i].id < order.id
    ensures WithoutOrder(before + [order], order.id) == before
  {
    FilterAppend(before, [order], (o: Order) => o.id != order.id);
    FilterKeepsAll(before, (o: Order) => o.id != order.id);
  }

  /** Appending a fresh order and exactly its lines keeps every total equal to its lines' sum. */
  lemma NewOrderKeepsTotals(before: seq<Order>, linesBefore: seq<OrderLine>, order: Order, items: seq<ItemInput>)
    requires forall i :: 0 <= i < |before| ==> before[i].id < order.id
    requires forall i :: 0 <= i < |linesBefore| ==> linesBefore[i].orderId < order.id
    requires order.totalAmount == Total(items)
    requires TotalsMatch(before, linesBefore)
    ensures TotalsMatch(before + [order], linesBefore + OrderLinesFor(order.id, order.id + 1, items))
  {
    var lines := OrderLinesFor(order.id, order.id + 1, items);
    var orders := before + [order];
    forall i | 0 <= i < |orders|
      ensures orders[i].totalAmount == LinesTotal(LinesOf(linesBefore + lines, orders[i].id))
    {
      if i < |before| {
        assert orders[i] == before[i];
        OlderOrderKeepsLines(linesBefore, lines, before[i].id, order.id);
      } else {
        assert orders[i] == order;
        NewOrderLines(linesBefore, order.id, items);
        LinesTotalOfOrderLines(order.id, order.id + 1, items);
      }
    }
  }

  lemma OlderOrderKeepsLines(linesBefore: seq<OrderLine>, lines: seq<OrderLine>, id: Id, newId: Id)
    requires id != newId
    requires forall k :: 0 <= k < |lines| ==> lines[k].orderId == newId
    ensures LinesOf(linesBefore + lines, id) == LinesOf(linesBefore, id)
  {
    FilterAppend(linesBefore, lines, (l: OrderLine) => l.orderId == id);
    FilterKeepsNone(lines, (l: OrderLine) => l.orderId == id);
  }

  lemma NewOrderLines(linesBefore: seq<OrderLine>, newId: Id, items: seq<ItemInput>)
    requires forall i :: 0 <= i < |linesBefore| ==> linesBefore[i].orderId < newId
    ensures LinesOf(linesBefore + OrderLinesFor(newId, newId + 1, items), newId) == OrderLinesFor(newId, newId + 1, items)
  {
    var lines := OrderLinesFor(newId, newId + 1, items);
    FilterAppend(linesBefore, lines, (l: OrderLine) => l.orderId == newId);
    FilterKeepsNone(linesBefore, (l: OrderLine) => l.orderId == newId);
    FilterKeepsAll(lines, (l: OrderLine) => l.orderId == newId);
  }

  // ---------------------------------------------------------------------------
  // Status changes

  const AllowedStatuses: seq<string> := ["pending", "completed", "cancelled"]

  /** `allowedStatuses.includes(String(status).toLowerCase())`. */
  predicate IsAllowedStatus(status: string) {
    Lower(status) in AllowedStatuses
  }

  /** Case-insensitive: a status is accepted exactly when it equals an allowed one up to ASCII case. */
  lemma AllowedStatusIgnoresCase(status: string)
    ensures IsAllowedStatus(status) <==>
      exists k :: 0 <= k < |AllowedStatuses| && |status| == |AllowedStatuses[k]| &&
        forall i :: 0 <= i < |status| ==> LowerChar(status[i]) == AllowedStatuses[k][i]
  {
    if IsAllowedStatus(status) {
      var k :| 0 <= k < |AllowedStatuses| && Lower(status) == AllowedStatuses[k];
      assert forall i :: 0 <= i < |status| ==> LowerChar(status[i]) == AllowedStatuses[k][i];
    } else {
      forall k | 0 <= k < |AllowedStatuses| && |status| == |AllowedStatuses[k]|
        ensures exists i :: 0 <= i < |status| && LowerChar(status[i]) != AllowedStatuses[k][i]
      {
        assert Lower(status) != AllowedStatuses[k];
      }
    }
  }

  const InvalidStatus := "Invalid status. Allowed: pending, completed, cancelled"

  datatype UpdateResponse =
    | Updated(order: Order)                 // 200
    | InvalidStatusRequest(error: string)   // 400
    | OrderNotFound(error: string)          // 404
    | UpdateFailed(error: string)           // 500

  /** `update({ status }).eq('id', id)` on the orders table. */
  function WithStatus(orders: seq<Order>, id: Id, status: string): (r: seq<Order>)
    ensures |r| == |orders|
    ensures forall i :: 0 <= i < |orders| ==>
      r[i] == if orders[i].id == id then orders[i].(status := status) else orders[i]
  {
    seq(|orders|, i requires 0 <= i < |orders| =>
      if orders[i].id == id then orders[i].(status := status) else orders[i])
  }

  /**
   * `PATCH /api/v1/orders/:orderId/status`: the status is checked before the
   * lookup; any allowed status may follow any current one.
   */
  method UpdateOrderStatus(db: Db, orderId: Id, status: string, lookupFails: bool, updateFails: bool)
    returns (res: UpdateResponse)
    requires db.Valid()
    modifies db`orders
    ensures db.Valid()
    ensures !IsAllowedStatus(status) ==> res == InvalidStatusRequest(InvalidStatus) && unchanged(db)
    ensures IsAllowedStatus(status) && (lookupFails || FindOrder(old(db.orders), orderId).None?) ==>
      res == OrderNotFound("Order not found") && unchanged(db)
    ensures IsAllowedStatus(status) && !lookupFails && FindOrder(old(db.orders), orderId).Some? ==>
      if updateFails then res == UpdateFailed("Failed to update order status") && unchanged(db)
      else
        && db.orders == WithStatus(old(db.orders), orderId, Lower(status))
        && res == Updated(FindOrder(old(db.orders), orderId).value.(status := Lower(status)))
  {
    if !IsAllowedStatus(status) {
      return InvalidStatusRequest(InvalidStatus);
    }
    var existing := FindOrder(db.orders, orderId);
    if lookupFails || existing.None? {
      return OrderNotFound("Order not found");
    }
    if updateFails {
      return UpdateFailed("Failed to update order status");
    }
    db.orders := WithStatus(db.orders, orderId, Lower(status));
    return Updated(existing.value.(status := Lower(status)));
  }

  // ---------------------------------------------------------------------------
  // Listings

  /** One order of a listing with its `order_items` expanded. */
  datatype OrderListing = OrderListing(order: Order, items: seq<OrderLine>)

  /** `order('created_at', { ascending: false })`. */
  predicate NewerOrSame(a: Order, b: Order) {
    a.createdAt >= b.createdAt
  }

  function NewestFirst(orders: seq<Order>): (r: seq<Order>)
    ensures multiset(r) == multiset(orders)
    ensures forall i, j :: 0 <= i < j < |r| ==> r[i].createdAt >= r[j].createdAt
  {
    SortBy(orders, NewerOrSame)
  }

  function Expand(orders: seq<Order>, lines: seq<OrderLine>): (r: seq<OrderListing>)
    ensures |r| == |orders|
    ensures forall k :: 0 <= k < |orders| ==> r[k] == OrderListing(orders[k], LinesOf(lines, orders[k].id))
  {
    seq(|orders|, k requires 0 <= k < |orders| => OrderListing(orders[k], LinesOf(lines, orders[k].id)))
  }

  function ListedOrders(ls: seq<OrderListing>): (r: seq<Order>)
    ensures |r| == |ls| && forall k :: 0 <= k < |ls| ==> r[k] == ls[k].order
  {
    Map(ls, (l: OrderListing) => l.order)
  }

  datatype ListResponse = Listed(orders: seq<OrderListing>) | ListFailed(error: string)

  /** `GET /api/v1/orders/my`: the caller's orders, newest first. */
  method GetMyOrders(db: Db, userId: Id, queryFails: bool) returns (res: ListResponse)
    ensures queryFails <==> res == ListFailed("Failed to fetch orders")
    ensures res.Listed? ==>
      && multiset(ListedOrders(res.orders)) == multiset(Filter(db.orders, (o: Order) => o.userId == userId))
      && (forall k :: 0 <= k < |res.orders| ==> res.orders[k].order.userId == userId)
      && (forall i, j :: 0 <= i < j < |res.orders| ==> res.orders[i].order.createdAt >= res.orders[j].order.createdAt)
      && (forall k :: 0 <= k < |res.orders| ==> res.orders[k].items == LinesOf(db.orderLines, res.orders[k].order.id))
  {
    if queryFails {
      return ListFailed("Failed to fetch orders");
    }
    var mine := Filter(db.orders, (o: Order) => o.userId == userId);
    var sorted := NewestFirst(mine);
    var listing := Expand(sorted, db.orderLines);
    assert ListedOrders(listing) == sorted;
    SameElementsOwned(sorted, mine, userId);
    return Listed(listing);
  }

  lemma SameElementsOwned(s: seq<Order>, mine: seq<Order>, userId: Id)
    requires multiset(s) == multiset(mine)
    requires forall o :: o in mine ==> o.userId == userId
    ensures forall k :: 0 <= k < |s| ==> s[k].userId == userId
  {
    forall k | 0 <= k < |s| ensures s[k].userId == userId {
      assert s[k] in multiset(s);
    }
  }

  /** `GET /api/v1/orders/all`: every order, newest first. */
  method GetAllOrders(db: Db, queryFails: bool) returns (res: ListResponse)
    ensures queryFails <==> res == ListFailed("Failed to fetch orders")
    ensures res.Listed? ==>
      && multiset(ListedOrders(res.orders)) == multiset(db.orders)
      && (forall i, j :: 0 <= i < j < |res.orders| ==> res.orders[i].order.createdAt >= res.orders[j].order.createdAt)
      && (forall k :: 0 <= k < |res.orders| ==> res.orders[k].items == LinesOf(db.orderLines, res.orders[k].order.id))
  {
    if queryFails {
      return ListFailed("Failed to fetch orders");
    }
    var sorted := NewestFirst(db.orders);
    var listing := Expand(sorted, db.orderLines);
    assert ListedOrders(listing) == sorted;
    return Listed(listing);
  }
}
