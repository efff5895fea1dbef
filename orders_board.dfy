/** The staff orders board: one button per status of the flow on each
    order, and the local list updated once the server accepts the change. */
module OrdersBoard {
  import opened Wrappers
  import opened Errors
  import opened Authorization
  import opened Db
  import Orders

  /** One order as the board lists it. */
  datatype OrderRow = OrderRow(
    id: string,
    orderNumber: int,
    status: OrderStatus,
    total: string,
    currency: string,
    customerName: Option<string>,
    placedAt: string)

  /** `STATUS_FLOW`: the statuses offered as buttons, in this order. */
  const StatusFlow: seq<OrderStatus> := [Pending, Confirmed, InPrep, Ready, Completed]

  /** Every status but CANCELLED is offered, each once. */
  lemma StatusFlowOffers()
    ensures |StatusFlow| == 5 && Cancelled !in StatusFlow
    ensures forall s: OrderStatus :: s != Cancelled ==> s in StatusFlow
    ensures forall i, j :: 0 <= i < j < |StatusFlow| ==> StatusFlow[i] != StatusFlow[j]
  {
  }

  /** The `setState` updater: `prev.map(order => order.id === orderId ? { ...order, status } : order)` */
  function WithStatus(prev: seq<OrderRow>, orderId: string, status: OrderStatus): seq<OrderRow> {
    seq(|prev|, i requires 0 <= i < |prev| => if prev[i].id == orderId then prev[i].(status := status) else prev[i])
  }

  /** The rows with the id take the new status and keep every other field;
      all other rows, the length and the order stay. */
  lemma WithStatusEffect(prev: seq<OrderRow>, orderId: string, status: OrderStatus)
    ensures var r := WithStatus(prev, orderId, status);
      && |r| == |prev|
      && (forall i :: 0 <= i < |prev| && prev[i].id == orderId ==> r[i] == prev[i].(status := status))
      && (forall i :: 0 <= i < |prev| && prev[i].id != orderId ==> r[i] == prev[i])
  {
  }

  /** The latest choice wins, whatever the order was set to before; so any
      status of the flow can follow any other. */
  lemma LastChoiceWins(prev: seq<OrderRow>, orderId: string, s1: OrderStatus, s2: OrderStatus)
    ensures WithStatus(WithStatus(prev, orderId, s1), orderId, s2) == WithStatus(prev, orderId, s2)
  {
  }

  /** Changes to two different orders do not interfere. */
  lemma DistinctOrdersCommute(prev: seq<OrderRow>, a: string, b: string, sa: OrderStatus, sb: OrderStatus)
    requires a != b
    ensures WithStatus(WithStatus(prev, a, sa), b, sb) == WithStatus(WithStatus(prev, b, sb), a, sa)
  {
  }

  /** The board shows, for every order it lists that the store has, the
      stored status. */
  predicate Mirrors(rows: seq<OrderRow>, orders: map<string, Order>) {
    forall i :: 0 <= i < |rows| && rows[i].id in orders ==> rows[i].status == orders[rows[i].id].status
  }

  /** An accepted change keeps the board in step with the store. */
  lemma AcceptedChangeMirrors(rows: seq<OrderRow>, orders: map<string, Order>, session: Option<Session>,
                              orderId: string, status: OrderStatus)
    requires Mirrors(rows, orders)
    requires Orders.StatusUpdate(orders, session, orderId, status).Ok?
    ensures Mirrors(WithStatus(rows, orderId, status), Orders.StatusUpdate(orders, session, orderId, status).value)
  {
    var after := Orders.StatusUpdate(orders, session, orderId, status).value;
    var r := WithStatus(rows, orderId, status);
    forall i | 0 <= i < |r| && r[i].id in after
      ensures r[i].status == after[r[i].id].status
    {
      if rows[i].id != orderId {
        assert rows[i].id in orders;
      }
    }
  }

  class Board {
    var state: seq<OrderRow>

    /** `useState(orders)` */
    constructor (orders: seq<OrderRow>)
      ensures state == orders
    {
      state := orders;
    }

    /** `handleStatus(orderId, status)`: the server action runs first; the
        list changes only when it returns, and is left as it was when it
        throws. */
    method HandleStatus(db: Database, session: Option<Session>, orderId: string, status: OrderStatus)
      returns (r: Result<OrderStatus, AppError>)
      requires db.Valid()
      modifies this, db
      ensures db.Valid()
      ensures var u := Orders.StatusUpdate(old(db.orders), session, orderId, status);
        && (r.Ok? <==> u.Ok?)
        && (r.Ok? ==> db.orders == u.value && state == WithStatus(old(state), orderId, status))
        && (r.Err? ==> r.error == u.error && state == old(state) && unchanged(db))
      ensures db.restaurants == old(db.restaurants) && db.catalog == old(db.catalog) && db.invoices == old(db.invoices)
      ensures db.orderSeries == old(db.orderSeries) && db.invoiceSeries == old(db.invoiceSeries)
    {
      r := Orders.UpdateOrderStatus(db, session, orderId, status);
      if r.Ok? {
        state := WithStatus(state, orderId, status);
      }
    }
  }
}
