/**
 * Catalog maintenance from the manager menu: adding an item and editing
 * one. Both update the shared catalog in place; the values come from the
 * prompts, so they are parameters here.
 */
module GroceryOperations {
  import opened Wrappers
  import opened Text
  import opened Records
  import opened Store

  /** How an edit ended. */
  datatype EditOutcome = Updated | NotFound | EditRaised(error: PyError)

  /**
   * add_new_grocery_item: float(price) and int(stock) are read first, and a
   * value they reject raises ValueError before anything changes; otherwise
   * the item is stored under str(len + 1), overwriting any item there.
   */
  method AddNewGroceryItem(catalog: Catalog, name: string, priceInput: string, stockInput: string)
    returns (r: Result<string, PyError>)
    modifies catalog
    ensures r.Ok? <==> ParseCents(priceInput).Some? && ParseInt(stockInput).Some?
    ensures r.Ok? ==>
      && r.value == NextId(old(catalog.items))
      && catalog.items == WithNewItem(old(catalog.items),
                                      Item(name, ParseCents(priceInput).value, ParseInt(stockInput).value))
    ensures r.Err? ==> r.error == ValueError && catalog.items == old(catalog.items)
  {
    var newId := NatToString(|catalog.items| + 1);
    var price := ParseCents(priceInput);
    if price.None? {
      return Err(ValueError);
    }
    var stock := ParseInt(stockInput);
    if stock.None? {
      return Err(ValueError);
    }
    catalog.items := catalog.items[newId := Item(name, price.value, stock.value)];
    r := Ok(newId);
  }

  /** Python's `answer or current` for a text field: an empty answer keeps the current value. */
  function OrCurrent(answer: string, current: string): string
  {
    if answer == "" then current else answer
  }

  /** float(answer or current_price): an empty answer keeps the current price. */
  function PriceAnswer(answer: string, current: int): Option<int>
  {
    if answer == "" then Some(current) else ParseCents(answer)
  }

  /** int(answer or current_stock): an empty answer keeps the current stock. */
  function StockAnswer(answer: string, current: int): Option<int>
  {
    if answer == "" then Some(current) else ParseInt(answer)
  }

  /**
   * edit_grocery_item. An unknown id changes nothing. Otherwise each empty
   * answer keeps the current value and each other answer replaces it. The
   * fields are assigned in the order name, price, stock, and float()/int()
   * run just before their field is assigned, so a rejected price leaves the
   * new name in place and a rejected stock leaves the new name and price.
   */
  method EditGroceryItem(catalog: Catalog, id: string, nameInput: string, priceInput: string, stockInput: string)
    returns (r: EditOutcome)
    modifies catalog
    ensures id !in old(catalog.items) ==> r == NotFound && catalog.items == old(catalog.items)
    ensures id in old(catalog.items) ==>
      var before := old(catalog.items)[id];
      var price := PriceAnswer(priceInput, before.price);
      var stock := StockAnswer(stockInput, before.stock);
      && catalog.items.Keys == old(catalog.items).Keys
      && (forall k :: k in old(catalog.items) && k != id ==> catalog.items[k] == old(catalog.items)[k])
      && catalog.items[id].name == OrCurrent(nameInput, before.name)
      && catalog.items[id].price == (if price.Some? then price.value else before.price)
      && catalog.items[id].stock == (if price.Some? && stock.Some? then stock.value else before.stock)
      && (r == Updated <==> price.Some? && stock.Some?)
      && (r != Updated ==> r == EditRaised(ValueError))
  {
    if id !in catalog.items {
      return NotFound;
    }
    var item := catalog.items[id];
    var name := OrCurrent(nameInput, item.name);
    catalog.items := catalog.items[id := catalog.items[id].(name := name)];
    var price := item.price;
    if priceInput != "" {
      var parsed := ParseCents(priceInput);
      if parsed.None? {
        return EditRaised(ValueError);
      }
      price := parsed.value;
    }
    catalog.items := catalog.items[id := catalog.items[id].(price := price)];
    var stock := item.stock;
    if stockInput != "" {
      var parsed := ParseInt(stockInput);
      if parsed.None? {
        return EditRaised(ValueError);
      }
      stock := parsed.value;
    }
    catalog.items := catalog.items[id := catalog.items[id].(stock := stock)];
    r := Updated;
  }
}
