/**
 * The two pieces of mutable state every operation shares: the grocery
 * catalog (a dict from id to item, changed in place) and the transaction
 * log (appended to, never rewritten), and the catalog updates they undergo.
 */
module Store {
  import opened Text
  import opened Records

  /** The grocery_data dict, passed by reference and updated in place. */
  class Catalog {
    var items: map<string, Item>

    constructor (initial: map<string, Item>)
      ensures items == initial
    {
      items := initial;
    }
  }

  /** The transaction log: the transaction file, or the in-memory list of the session. */
  class SalesLog {
    var records: seq<Sale>

    constructor (initial: seq<Sale>)
      ensures records == initial
    {
      records := initial;
    }

    method Append(s: Sale)
      modifies this
      ensures records == old(records) + [s]
    {
      records := records + [s];
    }
  }

  /** The id a new item gets: str(len(grocery_data) + 1). */
  function NextId(items: map<string, Item>): string
  {
    NatToString(|items| + 1)
  }

  /** The catalog after storing a new item under NextId. */
  function WithNewItem(items: map<string, Item>, item: Item): map<string, Item>
  {
    items[NextId(items) := item]
  }

  /** The catalog after selling quantity units of id: its stock goes down by quantity. */
  function AfterSale(items: map<string, Item>, id: string, quantity: int): map<string, Item>
    requires id in items
  {
    items[id := items[id].(stock := items[id].stock - quantity)]
  }

  /** Ids "1" .. "n" for a catalog of n items. */
  ghost predicate ContiguousIds(items: map<string, Item>)
  {
    forall k :: k in items <==> exists i :: 1 <= i <= |items| && k == NatToString(i)
  }

  /**
   * Adding grows the catalog by one exactly when the new id is not taken;
   * otherwise it overwrites the item that holds it. Every other entry stays.
   */
  lemma WithNewItemEffect(items: map<string, Item>, item: Item)
    ensures var r := WithNewItem(items, item);
      && r.Keys == items.Keys + {NextId(items)}
      && r[NextId(items)] == item
      && (forall k :: k in items && k != NextId(items) ==> r[k] == items[k])
      && (|r| == |items| + 1 <==> NextId(items) !in items)
      && (NextId(items) in items ==> |r| == |items|)
  {
    var r := WithNewItem(items, item);
    if NextId(items) !in items {
      assert |r.Keys| == |items.Keys| + 1;
    } else {
      assert r.Keys == items.Keys;
    }
  }

  /** With ids "1" .. "n" the new id is always free, so adding never overwrites. */
  lemma ContiguousIdsNextIsFresh(items: map<string, Item>)
    requires ContiguousIds(items)
    ensures NextId(items) !in items
  {
    if NextId(items) in items {
      var i :| 1 <= i <= |items| && NextId(items) == NatToString(i);
      NatToStringInjective(i, |items| + 1);
    }
  }

  /** With a gap in the ids ("1" and "3"), the new id "3" is already taken and that item is lost. */
  lemma NonContiguousIdsOverwrite()
    ensures var items := map["1" := Item("Apple", 50, 10), "3" := Item("Pear", 80, 5)];
      && NextId(items) == "3"
      && |WithNewItem(items, Item("Plum", 30, 7))| == 2
      && WithNewItem(items, Item("Plum", 30, 7))["3"] == Item("Plum", 30, 7)
  {
    var items := map["1" := Item("Apple", 50, 10), "3" := Item("Pear", 80, 5)];
    assert |items| == 2;
    assert NatToString(3) == "3";
    assert WithNewItem(items, Item("Plum", 30, 7)).Keys == {"1", "3"};
  }

  /** A sale changes exactly one field of one entry: the stock of the sold item. */
  lemma AfterSaleEffect(items: map<string, Item>, id: string, quantity: int)
    requires id in items
    ensures var r := AfterSale(items, id, quantity);
      && r.Keys == items.Keys
      && r[id].stock == items[id].stock - quantity
      && r[id].name == items[id].name && r[id].price == items[id].price
      && (forall k :: k in items && k != id ==> r[k] == items[k])
      && (quantity < 0 ==> r[id].stock > items[id].stock)
  {
  }
}
