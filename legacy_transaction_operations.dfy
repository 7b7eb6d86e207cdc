/**
 * Recording a sale (the older revision): both answers are read first, and
 * one guard accepts the sale when the id is known and the stock covers the
 * quantity.
 */
module LegacyTransactionOperations {
  import opened Wrappers
  import opened Text
  import opened Calendar
  import opened Records
  import opened Store

  /**
   * record_sales_transaction. A quantity int() rejects raises ValueError
   * before the id is looked at; the sale is accepted exactly when the id is
   * in the catalog and its stock is at least the quantity, and a rejected
   * sale changes nothing.
   */
  method RecordSalesTransaction(catalog: Catalog, log: SalesLog, id: string, quantityInput: string, now: Timestamp)
    returns (outcome: SaleOutcome)
    requires ValidTimestamp(now)
    modifies catalog, log
    ensures ParseInt(quantityInput).None? ==> outcome == Raised(ValueError)
    ensures outcome.Recorded? <==>
      ParseInt(quantityInput).Some? && id in old(catalog.items)
      && old(catalog.items)[id].stock >= ParseInt(quantityInput).value
    ensures ParseInt(quantityInput).Some? && !outcome.Recorded? ==> outcome == InvalidGroceryOrStock
    ensures !outcome.Recorded? ==> catalog.items == old(catalog.items) && log.records == old(log.records)
    ensures outcome.Recorded? ==>
      var quantity := ParseInt(quantityInput).value;
      && outcome.sale == Sale(FormatDayMonthYear(now.date), Clock12Text(now.clock), id, quantity,
                              quantity * old(catalog.items)[id].price)
      && catalog.items == AfterSale(old(catalog.items), id, quantity)
      && log.records == old(log.records) + [outcome.sale]
  {
    var parsed := ParseInt(quantityInput);
    if parsed.None? {
      return Raised(ValueError);
    }
    var quantity := parsed.value;
    if id in catalog.items && catalog.items[id].stock >= quantity {
      var stamp := Split(Stamp12(now), ' ');
      Stamp12Pieces(now);
      var sale := Sale(stamp[0], stamp[1] + " " + stamp[2], id, quantity, quantity * catalog.items[id].price);
      catalog.items := catalog.items[id := catalog.items[id].(stock := catalog.items[id].stock - quantity)];
      log.Append(sale);
      outcome := Recorded(sale);
    } else {
      outcome := InvalidGroceryOrStock;
    }
  }
}
