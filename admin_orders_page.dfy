/**
 * The admin order list, `frontend/src/pages/admin/AdminOrders.jsx`: the status
 * choices it offers and the local update after a status change.
 */
module AdminOrdersPage {

  import opened Wrappers
  import opened Text
  import opened Seqs
  import opened RecordStore
  import opened OrderController

  /** One row of the list: an order as fetched, with its `order_items` if present. */
  datatype Row = Row(order: Order, orderItems: Option<seq<OrderLine>>)

  datatype StatusOption = StatusOption(value: string, caption: string)

  const StatusOptions: seq<StatusOption> := [
    StatusOption("pending", "Pending"),
    StatusOption("completed", "Completed"),
    StatusOption("cancelled", "Cancelled")
  ]

  function OptionValues(options: seq<StatusOption>): (r: seq<string>)
    ensures |r| == |options| && forall k :: 0 <= k < |options| ==> r[k] == options[k].value
  {
    seq(|options|, k requires 0 <= k < |options| => options[k].value)
  }

  /** Each option value is one of the server's allowed statuses, already in lower case. */
  lemma OptionValueAllowed(k: nat)
    requires k < |StatusOptions|
    ensures IsLower(StatusOptions[k].value) && StatusOptions[k].value == AllowedStatuses[k]
  {
    var v := StatusOptions[k].value;
    if k == 0 {
      assert v == "pending";
    } else if k == 1 {
      assert v == "completed";
    } else {
      assert v == "cancelled";
    }
  }

  /** The values offered are exactly the server's allowed statuses, in the same order. */
  lemma StatusOptionsAreAllowed()
    ensures OptionValues(StatusOptions) == AllowedStatuses
    ensures forall k :: 0 <= k < |StatusOptions| ==> IsAllowedStatus(StatusOptions[k].value)
  {
    forall k | 0 <= k < |StatusOptions|
      ensures OptionValues(StatusOptions)[k] == AllowedStatuses[k] && IsAllowedStatus(StatusOptions[k].value)
    {
      OptionValueAllowed(k);
      LowerIsLower(StatusOptions[k].value);
    }
  }

  /** `order.order_items?.length || 0`. */
  function ItemCount(row: Row): (n: nat)
    ensures row.orderItems.None? ==> n == 0
    ensures row.orderItems.Some? ==> n == |row.orderItems.value|
  {
    if row.orderItems.Some? then |row.orderItems.value| else 0
  }

  /** `prev.map((o) => (o.id === orderId ? { ...o, status: nextStatus } : o))`. */
  function WithLocalStatus(rows: seq<Row>, orderId: Id, status: string): (r: seq<Row>)
    ensures |r| == |rows|
    ensures forall k :: 0 <= k < |rows| && rows[k].order.id != orderId ==> r[k] == rows[k]
    ensures forall k :: 0 <= k < |rows| && rows[k].order.id == orderId ==>
      r[k] == rows[k].(order := rows[k].order.(status := status))
  {
    seq(|rows|, k requires 0 <= k < |rows| =>
      if rows[k].order.id == orderId then rows[k].(order := rows[k].order.(status := status)) else rows[k])
  }

  function RowOrders(rows: seq<Row>): (r: seq<Order>)
    ensures |r| == |rows| && forall k :: 0 <= k < |rows| ==> r[k] == rows[k].order
  {
    Map(rows, (w: Row) => w.order)
  }

  /**
   * After a status chosen from the options is accepted, the local list shows
   * what the server stored: the server lower-cases, and the option values are
   * already lower case.
   */
  lemma LocalUpdateMatchesServer(rows: seq<Row>, orderId: Id, k: nat)
    requires k < |StatusOptions|
    ensures RowOrders(WithLocalStatus(rows, orderId, StatusOptions[k].value)) ==
            WithStatus(RowOrders(rows), orderId, Lower(StatusOptions[k].value))
  {
    var s := StatusOptions[k].value;
    OptionValueAllowed(k);
    LowerIsLower(s);
    var local := RowOrders(WithLocalStatus(rows, orderId, s));
    var server := WithStatus(RowOrders(rows), orderId, s);
    assert forall j :: 0 <= j < |local| ==> local[j] == server[j];
  }

  /** The page's state. */
  class AdminOrders {
    var orders: seq<Row>
    var updatingId: Option<Id>

    constructor (orders: seq<Row>)
      ensures this.orders == orders && updatingId.None?
    {
      this.orders := orders;
      updatingId := None;
    }

    /** The status menu of a row is disabled while that row's update is in flight. */
    predicate SelectDisabled(orderId: Id)
      reads this
    {
      updatingId == Some(orderId)
    }

    /** `handleStatusChange` up to the request: the row is marked as updating. */
    method BeginStatusChange(orderId: Id)
      modifies this`updatingId
      ensures updatingId == Some(orderId)
      ensures SelectDisabled(orderId)
    {
      updatingId := Some(orderId);
    }

    /**
     * `handleStatusChange` after the request: on success only the matching
     * row's status changes; on failure the list is untouched; either way
     * nothing is marked as updating any more.
     */
    method EndStatusChange(orderId: Id, nextStatus: string, succeeded: bool)
      modifies this`orders, this`updatingId
      ensures updatingId.None?
      ensures succeeded ==> orders == WithLocalStatus(old(orders), orderId, nextStatus)
      ensures !succeeded ==> orders == old(orders)
    {
      if succeeded {
        orders := WithLocalStatus(orders, orderId, nextStatus);
      }
      updatingId := None;
    }
  }
}
