/** `issueInvoiceForOrder`: a DRAFT invoice becomes ISSUED once, with the
    authorisation code (CAE) the tax authority's service returns; and
    `mapDocType`, the customer document type sent with the request. The
    service is a function parameter whose answer may be a failure. */
module Billing {
  import opened Wrappers
  import opened Errors
  import opened Permissions
  import opened Authorization
  import opened Db

  /** `mapDocType`: 80 (CUIT) for any non-empty tax id, else 96 (DNI) for a
      MONOTRIBUTO customer, else 99 (final consumer). */
  function MapDocType(taxCondition: TaxCondition, taxId: Option<string>): (docType: int)
    ensures docType in {80, 96, 99}
    ensures docType == 80 <==> taxId.Some? && taxId.value != ""
    ensures docType == 96 <==> (taxId.None? || taxId.value == "") && taxCondition == Monotributo
  {
    if taxId.Some? && taxId.value != "" then 80
    else if taxCondition == Monotributo then 96
    else 99
  }

  /** `customerTaxId ?? "0"`: only an absent id becomes "0". */
  function DocNumber(taxId: Option<string>): string {
    taxId.GetOr("0")
  }

  /** The request `issueAfipInvoice` receives. */
  datatype AfipRequest = AfipRequest(
    pointOfSale: string,
    invoiceType: string,
    total: real,
    net: real,
    tax: real,
    customerDocType: int,
    customerDocNumber: string)

  /** The answer of a successful request. */
  datatype Cae = Cae(cae: string, caeDueAt: int, receiptNumber: string)

  /** Thrown errors: an action error, or one raised by the service. */
  datatype BillingError = App(error: AppError) | ServiceFailure(message: string)

  /** The returned `{ success, error? }`. */
  datatype IssueReply = IssueReply(success: bool, error: Option<string>)

  /** `settings?.pointOfSale`, with an empty value counted as missing. */
  function PointOfSale(restaurants: map<string, Restaurant>, restaurantId: string): Option<string> {
    if restaurantId in restaurants && restaurants[restaurantId].settings.Some?
       && restaurants[restaurantId].settings.value.pointOfSale.Some?
       && restaurants[restaurantId].settings.value.pointOfSale.value != ""
    then restaurants[restaurantId].settings.value.pointOfSale
    else None
  }

  function RequestFor(invoice: Invoice, order: Order, pointOfSale: string): AfipRequest {
    AfipRequest(pointOfSale, invoice.invoiceType, invoice.total, invoice.subtotal, invoice.taxTotal,
                MapDocType(order.customerTaxCondition, order.customerTaxId), DocNumber(order.customerTaxId))
  }

  predicate InvoicesHaveOrders(orders: map<string, Order>, invoices: map<string, Invoice>) {
    forall id :: id in invoices ==> id in orders
  }

  /** `issueInvoiceForOrder` as a function of the tables it reads: the reply
      and the new invoices table, or the error thrown. */
  function IssueSpec(restaurants: map<string, Restaurant>, orders: map<string, Order>, invoices: map<string, Invoice>,
                     session: Option<Session>, orderId: string, afip: AfipRequest -> Result<Cae, string>)
    : Result<(IssueReply, map<string, Invoice>), BillingError>
    requires InvoicesHaveOrders(orders, invoices)
  {
    if orderId !in invoices then Err(App(BadRequest("Invoice not found")))
    else
      var invoice := invoices[orderId];
      match AssertRestaurantPermission(session, invoice.restaurantId, BillingManage)
      case Fail(e) => Err(App(e))
      case Pass =>
        if invoice.status != Draft then Ok((IssueReply(false, Some("Invoice already issued")), invoices))
        else
          match PointOfSale(restaurants, invoice.restaurantId)
          case None => Err(App(BadRequest("Point of sale not configured")))
          case Some(pos) =>
            match afip(RequestFor(invoice, orders[orderId], pos))
            case Err(message) => Err(ServiceFailure(message))
            case Ok(cae) =>
              var issued := invoice.(status := Issued, afipCae := Some(cae.cae), afipCaeDueAt := Some(cae.caeDueAt),
                                     afipReceiptNumber := Some(cae.receiptNumber));
              Ok((IssueReply(true, None), invoices[orderId := issued]))
  }

  method IssueInvoiceForOrder(db: Database, session: Option<Session>, orderId: string, afip: AfipRequest -> Result<Cae, string>)
    returns (r: Result<IssueReply, BillingError>)
    requires db.Valid()
    modifies db
    ensures db.Valid()
    ensures InvoicesHaveOrders(old(db.orders), old(db.invoices))
    ensures var s := IssueSpec(old(db.restaurants), old(db.orders), old(db.invoices), session, orderId, afip);
      && (r.Ok? <==> s.Ok?)
      && (r.Err? ==> r.error == s.error && unchanged(db))
      && (r.Ok? ==> r.value == s.value.0 && db.invoices == s.value.1)
    ensures db.restaurants == old(db.restaurants) && db.orders == old(db.orders) && db.catalog == old(db.catalog)
    ensures db.orderSeries == old(db.orderSeries) && db.invoiceSeries == old(db.invoiceSeries)
  {
    if orderId !in db.invoices {
      return Err(App(BadRequest("Invoice not found")));
    }
    var invoice := db.invoices[orderId];
    var allowed := AssertRestaurantPermission(session, invoice.restaurantId, BillingManage);
    if allowed.Fail? {
      return Err(App(allowed.error));
    }
    if invoice.status != Draft {
      return Ok(IssueReply(false, Some("Invoice already issued")));
    }
    var pos := PointOfSale(db.restaurants, invoice.restaurantId);
    if pos.None? {
      return Err(App(BadRequest("Point of sale not configured")));
    }
    var answer := afip(RequestFor(invoice, db.orders[orderId], pos.value));
    if answer.Err? {
      return Err(ServiceFailure(answer.error));
    }
    var cae := answer.value;
    db.invoices := db.invoices[orderId := invoice.(status := Issued, afipCae := Some(cae.cae),
                                                   afipCaeDueAt := Some(cae.caeDueAt), afipReceiptNumber := Some(cae.receiptNumber))];
    r := Ok(IssueReply(true, None));
  }

  // ---- what issuance guarantees ----

  /** A missing invoice is reported before the session is looked at. */
  lemma MissingInvoiceBeforePermission(restaurants: map<string, Restaurant>, orders: map<string, Order>, invoices: map<string, Invoice>,
                                       s1: Option<Session>, s2: Option<Session>, orderId: string, afip: AfipRequest -> Result<Cae, string>)
    requires InvoicesHaveOrders(orders, invoices) && orderId !in invoices
    ensures IssueSpec(restaurants, orders, invoices, s1, orderId, afip) == Err(App(BadRequest("Invoice not found")))
    ensures IssueSpec(restaurants, orders, invoices, s1, orderId, afip) == IssueSpec(restaurants, orders, invoices, s2, orderId, afip)
  {
  }

  /** An invoice that is not a draft is answered "Invoice already issued"
      and no invoice changes. */
  lemma AlreadyIssuedChangesNothing(restaurants: map<string, Restaurant>, orders: map<string, Order>, invoices: map<string, Invoice>,
                                    session: Option<Session>, orderId: string, afip: AfipRequest -> Result<Cae, string>)
    requires InvoicesHaveOrders(orders, invoices) && orderId in invoices && invoices[orderId].status != Draft
    ensures var s := IssueSpec(restaurants, orders, invoices, session, orderId, afip);
      s.Ok? ==> s.value == (IssueReply(false, Some("Invoice already issued")), invoices)
    ensures IssueSpec(restaurants, orders, invoices, session, orderId, afip).Err? ==>
      IssueSpec(restaurants, orders, invoices, session, orderId, afip).error.App?
  {
  }

  /** A draft without a point of sale fails and stays a draft. */
  lemma NoPointOfSaleFails(restaurants: map<string, Restaurant>, orders: map<string, Order>, invoices: map<string, Invoice>,
                           session: Option<Session>, orderId: string, afip: AfipRequest -> Result<Cae, string>)
    requires InvoicesHaveOrders(orders, invoices) && orderId in invoices && invoices[orderId].status == Draft
    requires PointOfSale(restaurants, invoices[orderId].restaurantId).None?
    ensures IssueSpec(restaurants, orders, invoices, session, orderId, afip).Err?
  {
  }

  /** A successful issuance marks that one invoice ISSUED with the service's
      code, due date and receipt number, sent for the invoice's own totals;
      every other invoice and every other field is kept. */
  lemma IssuedRecordsService(restaurants: map<string, Restaurant>, orders: map<string, Order>, invoices: map<string, Invoice>,
                             session: Option<Session>, orderId: string, afip: AfipRequest -> Result<Cae, string>)
    requires InvoicesHaveOrders(orders, invoices)
    requires IssueSpec(restaurants, orders, invoices, session, orderId, afip).Ok?
    requires IssueSpec(restaurants, orders, invoices, session, orderId, afip).value.0.success
    ensures orderId in invoices && invoices[orderId].status == Draft
    ensures var inv, pos := invoices[orderId], PointOfSale(restaurants, invoices[orderId].restaurantId);
      && pos.Some?
      && var req := RequestFor(inv, orders[orderId], pos.value);
      && req.total == inv.total && req.net == inv.subtotal && req.tax == inv.taxTotal
      && afip(req).Ok?
      && var cae := afip(req).value;
      && IssueSpec(restaurants, orders, invoices, session, orderId, afip).value.1 ==
           invoices[orderId := inv.(status := Issued, afipCae := Some(cae.cae), afipCaeDueAt := Some(cae.caeDueAt),
                                    afipReceiptNumber := Some(cae.receiptNumber))]
  {
  }

  /** Issuance happens at most once: right after a success, a second call
      for the same order is answered "Invoice already issued" and changes
      nothing. */
  lemma IssuedAtMostOnce(restaurants: map<string, Restaurant>, orders: map<string, Order>, invoices: map<string, Invoice>,
                         session: Option<Session>, orderId: string, afip: AfipRequest -> Result<Cae, string>,
                         afip2: AfipRequest -> Result<Cae, string>)
    requires InvoicesHaveOrders(orders, invoices)
    requires IssueSpec(restaurants, orders, invoices, session, orderId, afip).Ok?
    requires IssueSpec(restaurants, orders, invoices, session, orderId, afip).value.0.success
    ensures var after := IssueSpec(restaurants, orders, invoices, session, orderId, afip).value.1;
      InvoicesHaveOrders(orders, after)
      && IssueSpec(restaurants, orders, after, session, orderId, afip2) == Ok((IssueReply(false, Some("Invoice already issued")), after))
  {
    IssuedRecordsService(restaurants, orders, invoices, session, orderId, afip);
  }

  /** The document sent for a customer: an absent tax id sends "0", and an
      empty one is sent as it is with the document type of a customer that
      has none. */
  lemma DocumentSent(taxCondition: TaxCondition, taxId: Option<string>)
    ensures taxId.None? ==> DocNumber(taxId) == "0" && MapDocType(taxCondition, taxId) in {96, 99}
    ensures taxId == Some("") ==> DocNumber(taxId) == "" && MapDocType(taxCondition, taxId) == MapDocType(taxCondition, None)
    ensures taxId.Some? && taxId.value != "" ==> DocNumber(taxId) == taxId.value && MapDocType(taxCondition, taxId) == 80
  {
  }
}
