/** The records the order and billing actions read and write, and the store
    that holds them: one map per table, keyed by id (invoices and series by
    the order and the restaurant they belong to). */
module Db {
  import opened Wrappers
  import opened Pricing
  import opened OrderSchema

  datatype Settings = Settings(
    orderPrefix: Option<string>,
    invoicePrefix: Option<string>,
    currency: Option<string>,
    pointOfSale: Option<string>)

  datatype Restaurant = Restaurant(name: string, settings: Option<Settings>)

  datatype OrderStatus = Pending | Confirmed | InPrep | Ready | Completed | Cancelled

  datatype StatusChange = StatusChange(status: OrderStatus, changedById: Option<string>)

  datatype TaxCondition = ResponsableInscripto | Monotributo | Exento | ConsumidorFinal

  datatype Order = Order(
    restaurantId: string,
    publicToken: string,
    orderNumber: int,
    orderType: OrderType,
    channel: Channel,
    status: OrderStatus,
    tableId: Option<string>,
    customerName: Option<string>,
    customerPhone: Option<string>,
    customerEmail: Option<string>,
    notes: Option<string>,
    subtotal: real,
    taxTotal: real,
    total: real,
    currency: string,
    items: seq<OrderLine>,
    statusHistory: seq<StatusChange>,
    customerTaxCondition: TaxCondition,
    customerTaxId: Option<string>)

  datatype InvoiceStatus = Draft | Issued

  datatype InvoiceLine = InvoiceLine(
    description: string,
    quantity: int,
    unitPrice: real,
    total: real,
    taxAmount: real,
    taxLabel: Option<string>)

  datatype Invoice = Invoice(
    restaurantId: string,
    number: int,
    prefix: string,
    subtotal: real,
    taxTotal: real,
    total: real,
    currency: string,
    status: InvoiceStatus,
    invoiceType: string,
    lines: seq<InvoiceLine>,
    afipCae: Option<string>,
    afipCaeDueAt: Option<int>,
    afipReceiptNumber: Option<string>)

  /** A per-restaurant counter: the prefix it was created with and the last
      number handed out. */
  datatype Series = Series(prefix: string, lastNumber: int)

  /** The series upsert: a restaurant's first call creates the counter at 1
      with `prefix`; every later call adds one and keeps the stored prefix. */
  function Upsert(series: map<string, Series>, restaurantId: string, prefix: string): (r: map<string, Series>)
    ensures restaurantId in r && r.Keys == series.Keys + {restaurantId}
    ensures restaurantId !in series ==> r[restaurantId] == Series(prefix, 1)
    ensures restaurantId in series ==>
      r[restaurantId] == Series(series[restaurantId].prefix, series[restaurantId].lastNumber + 1)
    ensures forall other :: other in series && other != restaurantId ==> r[other] == series[other]
  {
    if restaurantId in series
    then series[restaurantId := Series(series[restaurantId].prefix, series[restaurantId].lastNumber + 1)]
    else series[restaurantId := Series(prefix, 1)]
  }

  /** `n` successive upserts for one restaurant. */
  function UpsertTimes(series: map<string, Series>, restaurantId: string, prefix: string, n: nat): map<string, Series> {
    if n == 0 then series else Upsert(UpsertTimes(series, restaurantId, prefix, n - 1), restaurantId, prefix)
  }

  /** Starting without a counter, the `n`-th order of a restaurant gets
      number `n`, and the counters of other restaurants never move. */
  lemma {:induction false} SeriesCountsFromOne(series: map<string, Series>, restaurantId: string, prefix: string, n: nat)
    requires restaurantId !in series && n >= 1
    ensures var r := UpsertTimes(series, restaurantId, prefix, n);
      && restaurantId in r && r[restaurantId] == Series(prefix, n)
      && forall other :: other in series ==> other in r && r[other] == series[other]
  {
    if n > 1 {
      SeriesCountsFromOne(series, restaurantId, prefix, n - 1);
    }
  }

  /** The store. */
  class Database {
    var restaurants: map<string, Restaurant>
    var catalog: Catalog
    var orders: map<string, Order>
    var invoices: map<string, Invoice>
    var orderSeries: map<string, Series>
    var invoiceSeries: map<string, Series>

    /** Every invoice belongs to an order of its restaurant, which exists,
        and the catalog's tax rates are non-negative. */
    ghost predicate Valid()
      reads this
    {
      && RatesNonNegative(catalog)
      && (forall id :: id in invoices ==> id in orders && invoices[id].restaurantId == orders[id].restaurantId)
      && (forall id :: id in orders ==> orders[id].restaurantId in restaurants)
    }

    constructor (restaurants: map<string, Restaurant>, catalog: Catalog)
      requires RatesNonNegative(catalog)
      ensures Valid()
      ensures this.restaurants == restaurants && this.catalog == catalog
      ensures orders == map[] && invoices == map[] && orderSeries == map[] && invoiceSeries == map[]
    {
      this.restaurants := restaurants;
      this.catalog := catalog;
      orders := map[];
      invoices := map[];
      orderSeries := map[];
      invoiceSeries := map[];
    }
  }
}
