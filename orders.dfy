/** The two order actions: `createGuestOrder` (validate, price, number the
    order and its invoice, write both) and `updateOrderStatus` (any status,
    from any status, for a user allowed to manage the restaurant's orders). */
module Orders {
  import opened Wrappers
  import opened Errors
  import opened SchemaRules
  import opened OrderSchema
  import opened Pricing
  import opened Db
  import opened Permissions
  import opened Authorization
  import Security

  /** Why an order was not placed: the payload failed the schema, or an
      action error was thrown. */
  datatype CreateError = Invalid(issues: seq<Issue>) | Failed(error: AppError)

  /** What `createGuestOrder` returns. */
  datatype Placed = Placed(orderId: string, orderNumber: int, publicToken: string, status: OrderStatus, total: real)

  function OrderPrefix(r: Restaurant): string {
    if r.settings.Some? && r.settings.value.orderPrefix.Some? then r.settings.value.orderPrefix.value else "ORD"
  }

  function InvoicePrefix(r: Restaurant): string {
    if r.settings.Some? && r.settings.value.invoicePrefix.Some? then r.settings.value.invoicePrefix.value else "FAC"
  }

  function Currency(r: Restaurant): string {
    if r.settings.Some? && r.settings.value.currency.Some? then r.settings.value.currency.value else "ARS"
  }

  /** `s ? sanitizeText(s) : undefined` */
  function SanitizedOpt(s: Option<string>): Option<string> {
    if s.Some? && s.value != "" then Some(Security.SanitizeText(s.value)) else None
  }

  /** An invoice line per order line; only a positive tax gets a label. */
  function InvoiceLines(lines: seq<OrderLine>): (r: seq<InvoiceLine>)
    ensures |r| == |lines|
    ensures forall i :: 0 <= i < |lines| ==>
      && r[i].description == lines[i].name && r[i].quantity == lines[i].quantity
      && r[i].unitPrice == lines[i].unitPrice && r[i].total == lines[i].totalPrice
      && r[i].taxAmount == lines[i].taxAmount
      && (r[i].taxLabel.Some? <==> lines[i].taxAmount > 0.0)
  {
    seq(|lines|, i requires 0 <= i < |lines| =>
      var l := lines[i];
      InvoiceLine(l.name, l.quantity, l.unitPrice, l.totalPrice, l.taxAmount, if l.taxAmount > 0.0 then Some("Tax") else None))
  }

  /** The order row that `tx.order.create` writes. */
  function NewOrder(input: OrderInput, publicToken: string, number: int, p: Priced, currency: string): Order {
    var customer := input.customer;
    Order(
      input.restaurantId, publicToken, number, input.orderType, input.channel, Pending, input.tableId,
      if customer.Some? then SanitizedOpt(Some(customer.value.name)) else None,
      Security.NormalizePhone(if customer.Some? then customer.value.phone else None),
      if customer.Some? then customer.value.email else None,
      SanitizedOpt(input.notes),
      p.totals.subtotal, p.totals.tax, p.totals.total, currency, p.lines,
      [StatusChange(Pending, None)],
      ConsumidorFinal, None)
  }

  /** The invoice row that `tx.invoice.create` writes. */
  function NewInvoice(restaurantId: string, series: Series, p: Priced, currency: string): Invoice {
    Invoice(restaurantId, series.lastNumber, series.prefix, p.totals.subtotal, p.totals.tax, p.totals.total,
            currency, Draft, "B", InvoiceLines(p.lines), None, None, None)
  }

  /** A validated, priced order, ready to be written. */
  datatype Plan = Plan(input: OrderInput, restaurant: Restaurant, priced: Priced)

  /** Everything `createGuestOrder` decides before it writes: the schema, the
      restaurant lookup, then the pricing rules. */
  function PlanOrder(restaurants: map<string, Restaurant>, cat: Catalog, raw: RawOrder, isEmail: string -> bool): Result<Plan, CreateError>
    requires RatesNonNegative(cat)
  {
    match ParseOrder(raw, isEmail)
    case Err(issues) => Err(Invalid(issues))
    case Ok(input) =>
      if input.restaurantId !in restaurants then Err(Failed(NotFound("Restaurant not found")))
      else
        match PriceOrderSpec(cat, input.restaurantId, input.items)
        case Err(e) => Err(Failed(e))
        case Ok(p) => Ok(Plan(input, restaurants[input.restaurantId], p))
  }

  /** `createGuestOrder`. A failure rolls the transaction back, so the store
      is unchanged; a success bumps both counters of the restaurant and
      writes a PENDING order and its DRAFT invoice with the same totals. */
  method CreateGuestOrder(db: Database, raw: RawOrder, isEmail: string -> bool, orderId: string, publicToken: string)
    returns (r: Result<Placed, CreateError>)
    requires db.Valid() && orderId !in db.orders
    modifies db
    ensures db.Valid()
    ensures var plan := PlanOrder(old(db.restaurants), old(db.catalog), raw, isEmail);
      && (r.Err? <==> plan.Err?)
      && (r.Err? ==> r.error == plan.error && unchanged(db))
      && (r.Ok? ==>
            var rid, restaurant, p := plan.value.input.restaurantId, plan.value.restaurant, plan.value.priced;
            && db.restaurants == old(db.restaurants) && db.catalog == old(db.catalog)
            && db.orderSeries == Upsert(old(db.orderSeries), rid, OrderPrefix(restaurant))
            && db.invoiceSeries == Upsert(old(db.invoiceSeries), rid, InvoicePrefix(restaurant))
            && db.orders == old(db.orders)[orderId :=
                 NewOrder(plan.value.input, publicToken, db.orderSeries[rid].lastNumber, p, Currency(restaurant))]
            && db.invoices == old(db.invoices)[orderId := NewInvoice(rid, db.invoiceSeries[rid], p, Currency(restaurant))]
            && r.value == Placed(orderId, db.orderSeries[rid].lastNumber, publicToken, Pending, p.totals.total))
  {
    ghost var plan := PlanOrder(db.restaurants, db.catalog, raw, isEmail);
    var parsed := ParseOrder(raw, isEmail);
    if parsed.Err? {
      assert plan == Err(Invalid(parsed.error));
      return Err(Invalid(parsed.error));
    }
    var input := parsed.value;
    var rid := input.restaurantId;
    if rid !in db.restaurants {
      assert plan == Err(Failed(NotFound("Restaurant not found")));
      return Err(Failed(NotFound("Restaurant not found")));
    }
    var restaurant := db.restaurants[rid];
    var priced := PriceOrder(db.catalog, rid, input.items);
    if priced.Err? {
      assert plan == Err(Failed(priced.error));
      return Err(Failed(priced.error));
    }
    var p := priced.value;
    assert plan == Ok(Plan(input, restaurant, p));
    var placed := WriteOrder(db, input, restaurant, p, orderId, publicToken);
    r := Ok(placed);
  }

  /** The transaction's writes: both counters of the restaurant move on,
      then the order and its invoice are created with the new numbers. */
  method WriteOrder(db: Database, input: OrderInput, restaurant: Restaurant, p: Priced, orderId: string, publicToken: string)
    returns (placed: Placed)
    requires db.Valid() && orderId !in db.orders
    requires input.restaurantId in db.restaurants && db.restaurants[input.restaurantId] == restaurant
    modifies db
    ensures db.Valid()
    ensures var rid := input.restaurantId;
      && db.restaurants == old(db.restaurants) && db.catalog == old(db.catalog)
      && db.orderSeries == Upsert(old(db.orderSeries), rid, OrderPrefix(restaurant))
      && db.invoiceSeries == Upsert(old(db.invoiceSeries), rid, InvoicePrefix(restaurant))
      && db.orders == old(db.orders)[orderId := NewOrder(input, publicToken, db.orderSeries[rid].lastNumber, p, Currency(restaurant))]
      && db.invoices == old(db.invoices)[orderId := NewInvoice(rid, db.invoiceSeries[rid], p, Currency(restaurant))]
      && placed == Placed(orderId, db.orderSeries[rid].lastNumber, publicToken, Pending, p.totals.total)
  {
    var rid := input.restaurantId;
    var currency := Currency(restaurant);
    db.orderSeries := Upsert(db.orderSeries, rid, OrderPrefix(restaurant));
    db.invoiceSeries := Upsert(db.invoiceSeries, rid, InvoicePrefix(restaurant));
    var number := db.orderSeries[rid].lastNumber;
    var order := NewOrder(input, publicToken, number, p, currency);
    assert order.restaurantId == rid;
    var invoice := NewInvoice(rid, db.invoiceSeries[rid], p, currency);
    db.orders := db.orders[orderId := order];
    db.invoices := db.invoices[orderId := invoice];
    placed := Placed(orderId, number, publicToken, Pending, p.totals.total);
  }

  /** The order and the invoice written for one placed order belong to the
      same restaurant, carry the same currency and the same three totals, which are the sums over the order's lines; the invoice
      has one line per order line; the order starts PENDING with that one
      history entry, and the invoice is a type B draft. */
  lemma PlacedRecordsAgree(restaurants: map<string, Restaurant>, cat: Catalog, raw: RawOrder, isEmail: string -> bool,
                           publicToken: string, orderNumber: int, series: Series)
    requires RatesNonNegative(cat) && PlanOrder(restaurants, cat, raw, isEmail).Ok?
    ensures var plan := PlanOrder(restaurants, cat, raw, isEmail).value;
      var cur := Currency(plan.restaurant);
      var o := NewOrder(plan.input, publicToken, orderNumber, plan.priced, cur);
      var inv := NewInvoice(plan.input.restaurantId, series, plan.priced, cur);
      && o.restaurantId == inv.restaurantId && o.currency == inv.currency
      && o.subtotal == inv.subtotal && o.taxTotal == inv.taxTotal && o.total == inv.total
      && inv.lines == InvoiceLines(o.items)
      && o.total == o.subtotal + o.taxTotal
      && o.total == LinesTotal(o.items) && o.taxTotal == LinesTax(o.items)
      && |inv.lines| == |o.items| == |raw.items|
      && o.status == Pending && o.statusHistory == [StatusChange(Pending, None)]
      && inv.status == Draft && inv.invoiceType == "B" && inv.number == series.lastNumber
  {
    var input := ParseOrder(raw, isEmail).value;
    AcceptedOrder(cat, input.restaurantId, input.items);
  }

  /** Two orders placed one after the other for a restaurant get consecutive
      numbers, and so do their invoices, each series on its own. */
  lemma ConsecutiveNumbers(orderSeries: map<string, Series>, invoiceSeries: map<string, Series>, rid: string, r: Restaurant)
    ensures var o1, i1 := Upsert(orderSeries, rid, OrderPrefix(r)), Upsert(invoiceSeries, rid, InvoicePrefix(r));
      var o2, i2 := Upsert(o1, rid, OrderPrefix(r)), Upsert(i1, rid, InvoicePrefix(r));
      && o2[rid].lastNumber == o1[rid].lastNumber + 1
      && i2[rid].lastNumber == i1[rid].lastNumber + 1
      && (rid !in orderSeries ==> o1[rid].lastNumber == 1)
      && (rid !in invoiceSeries ==> i1[rid].lastNumber == 1 && i1[rid].prefix == InvoicePrefix(r))
  {
  }

  // ---- updateOrderStatus ----

  /** `session?.user?.id` */
  function UserId(session: Option<Session>): Option<string> {
    if UserOf(session).Some? then Some(UserOf(session).value.id) else None
  }

  /** `updateOrderStatus` as a function of the orders table: not found, then
      the permission check, then the update and its history entry. The
      current status is never consulted. */
  function StatusUpdate(orders: map<string, Order>, session: Option<Session>, orderId: string, status: OrderStatus)
    : (r: Result<map<string, Order>, AppError>)
    ensures orderId !in orders ==> r == Err(NotFound("Order not found"))
    ensures r.Ok? ==> orderId in orders && r.value.Keys == orders.Keys
    ensures r.Ok? ==>
      && r.value[orderId].status == status
      && r.value[orderId].statusHistory == orders[orderId].statusHistory + [StatusChange(status, UserId(session))]
    ensures r.Ok? ==>
      r.value[orderId] == orders[orderId].(status := status,
                                           statusHistory := orders[orderId].statusHistory + [StatusChange(status, UserId(session))])
    ensures r.Ok? ==> forall id :: id in orders && id != orderId ==> r.value[id] == orders[id]
  {
    if orderId !in orders then Err(NotFound("Order not found"))
    else
      var o := orders[orderId];
      match AssertRestaurantPermission(session, o.restaurantId, OrdersManage)
      case Fail(e) => Err(e)
      case Pass =>
        Ok(orders[orderId := o.(status := status, statusHistory := o.statusHistory + [StatusChange(status, UserId(session))])])
  }

  /** Any target status is accepted from any current status: the outcome
      depends on the session and the restaurant only. */
  lemma NoTransitionCheck(orders: map<string, Order>, session: Option<Session>, orderId: string, status: OrderStatus, current: OrderStatus)
    requires orderId in orders
    ensures var moved := orders[orderId := orders[orderId].(status := current)];
      StatusUpdate(moved, session, orderId, status).Ok? == StatusUpdate(orders, session, orderId, status).Ok?
    ensures StatusUpdate(orders, session, orderId, status).Ok? <==>
      UserOf(session).Some? && HasRestaurantPermission(UserOf(session).value.restaurants, orders[orderId].restaurantId, OrdersManage)
  {
    ThreeOutcomes(session, orders[orderId].restaurantId, OrdersManage);
  }

  method UpdateOrderStatus(db: Database, session: Option<Session>, orderId: string, status: OrderStatus)
    returns (r: Result<OrderStatus, AppError>)
    requires db.Valid()
    modifies db
    ensures db.Valid()
    ensures var u := StatusUpdate(old(db.orders), session, orderId, status);
      && (r.Ok? <==> u.Ok?)
      && (r.Err? ==> r.error == u.error && unchanged(db))
      && (r.Ok? ==>
            && r.value == status && db.orders == u.value
            && db.restaurants == old(db.restaurants) && db.catalog == old(db.catalog)
            && db.invoices == old(db.invoices)
            && db.orderSeries == old(db.orderSeries) && db.invoiceSeries == old(db.invoiceSeries))
  {
    if orderId !in db.orders {
      return Err(NotFound("Order not found"));
    }
    var order := db.orders[orderId];
    var allowed := AssertRestaurantPermission(session, order.restaurantId, OrdersManage);
    if allowed.Fail? {
      return Err(allowed.error);
    }
    db.orders := db.orders[orderId := order.(status := status, statusHistory := order.statusHistory + [StatusChange(status, UserId(session))])];
    r := Ok(status);
  }
}
