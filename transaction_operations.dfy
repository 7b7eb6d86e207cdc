/**
 * Recording a sale (the current revision): the id is checked, then the
 * quantity is read, then the stock; an accepted sale lowers the stock of
 * that item and appends one record to the transaction log. The prompts'
 * answers and the clock reading are parameters.
 */
module TransactionOperations {
  import opened Wrappers
  import opened Text
  import opened Calendar
  import opened Records
  import opened Store

  /**
   * record_sales_transaction. Each rejection (unknown id, a quantity int()
   * rejects, stock below the quantity) changes nothing. An accepted sale is
   * stamped "%d/%m/%Y" and "%I:%M:%S %p" from the clock, pays
   * quantity * price (the price already in whole cents), lowers that item's
   * stock by quantity and appends exactly that record. The quantity is not
   * required to be positive.
   */
  method RecordSalesTransaction(catalog: Catalog, log: SalesLog, id: string, quantityInput: string, now: Timestamp)
    returns (outcome: SaleOutcome)
    requires ValidTimestamp(now)
    modifies catalog, log
    ensures id !in old(catalog.items) ==> outcome == UnknownGrocery
    ensures id in old(catalog.items) && ParseInt(quantityInput).None? ==> outcome == InvalidQuantity
    ensures (id in old(catalog.items) && ParseInt(quantityInput).Some?
             && old(catalog.items)[id].stock < ParseInt(quantityInput).value) ==> outcome == InsufficientStock
    ensures outcome.Recorded? <==>
      id in old(catalog.items) && ParseInt(quantityInput).Some?
      && old(catalog.items)[id].stock >= ParseInt(quantityInput).value
    ensures !outcome.Recorded? ==> catalog.items == old(catalog.items) && log.records == old(log.records)
    ensures outcome.Recorded? ==>
      var quantity := ParseInt(quantityInput).value;
      && outcome.sale == Sale(FormatDayMonthYear(now.date), Clock12Text(now.clock), id, quantity,
                              quantity * old(catalog.items)[id].price)
      && catalog.items == AfterSale(old(catalog.items), id, quantity)
      && log.records == old(log.records) + [outcome.sale]
  {
    if id !in catalog.items {
      return UnknownGrocery;
    }
    var parsed := ParseInt(quantityInput);
    if parsed.None? {
      return InvalidQuantity;
    }
    var quantity := parsed.value;
    if catalog.items[id].stock < quantity {
      return InsufficientStock;
    }
    var stamp := Split(Stamp12(now), ' ');
    Stamp12Pieces(now);
    var sale := Sale(stamp[0], stamp[1] + " " + stamp[2], id, quantity, quantity * catalog.items[id].price);
    catalog.items := catalog.items[id := catalog.items[id].(stock := catalog.items[id].stock - quantity)];
    log.Append(sale);
    outcome := Recorded(sale);
  }
}
