/**
 * The interactive session: logging in against the user list, and the two
 * manager-menu branches that change state (a sale with a payment typed in
 * by the manager, and adding an item). The menu loop itself reads the
 * answers that are parameters here.
 */
module GroceryStore {
  import opened Wrappers
  import opened Text
  import opened Calendar
  import opened Records
  import opened Store

  /** A row of the user file. */
  datatype User = User(username: string, password: string, userType: string)

  /** authenticate_user's result tuple (authenticated, username, user type). */
  datatype Login = Login(authenticated: bool, username: Option<string>, userType: Option<string>)

  /** The generator `next(user for user in users if user['username'] == name)`: the first match. */
  function FirstNamed(users: seq<User>, name: string): (r: Option<nat>)
    ensures r.Some? ==> r.value < |users| && users[r.value].username == name
                        && forall j :: 0 <= j < r.value ==> users[j].username != name
    ensures r.None? ==> forall j :: 0 <= j < |users| ==> users[j].username != name
    decreases |users|
  {
    if |users| == 0 then None
    else if users[0].username == name then Some(0)
    else match FirstNamed(users[1..], name)
      case None => None
      case Some(i) => Some(i + 1)
  }

  /**
   * authenticate_user: only the first user with that name is consulted; the
   * login succeeds when its password is equal, and returns that user's type.
   */
  function AuthenticateUser(users: seq<User>, username: string, password: string): (r: Login)
    ensures r.authenticated <==>
      exists i :: 0 <= i < |users| && users[i].username == username && users[i].password == password
                  && forall j :: 0 <= j < i ==> users[j].username != username
    ensures r.authenticated ==>
      exists i :: 0 <= i < |users| && users[i].username == username
                  && (forall j :: 0 <= j < i ==> users[j].username != username)
                  && r == Login(true, Some(username), Some(users[i].userType))
    ensures !r.authenticated ==> r == Login(false, None, None)
  {
    match FirstNamed(users, username)
    case Some(i) =>
      if users[i].password == password then Login(true, Some(username), Some(users[i].userType))
      else Login(false, None, None)
    case None => Login(false, None, None)
  }

  /**
   * With duplicate user names the later rows are shadowed: a password that
   * only a later row with the same name has does not log in.
   */
  lemma DuplicateUsernameShadowed(users: seq<User>, i: nat, j: nat, password: string)
    requires i < j < |users|
    requires users[i].username == users[j].username
    requires forall k :: 0 <= k < i ==> users[k].username != users[i].username
    requires users[j].password == password != users[i].password
    ensures !AuthenticateUser(users, users[j].username, password).authenticated
  {
  }

  /**
   * The sale branch of the manager menu. int(quantity) and float(payment)
   * are read first and a value they reject raises ValueError; the sale is
   * accepted exactly when the id is known and the stock covers the quantity.
   * It then appends one record, stamped "%Y-%m-%d" and "%H:%M:%S", carrying
   * the payment as entered, and lowers the stock by quantity.
   */
  method ManagerSale(catalog: Catalog, transactions: SalesLog, id: string, quantityInput: string,
                     paymentInput: string, now: Timestamp)
    returns (outcome: SaleOutcome)
    requires ValidTimestamp(now)
    modifies catalog, transactions
    ensures ParseInt(quantityInput).None? || ParseCents(paymentInput).None? ==> outcome == Raised(ValueError)
    ensures outcome.Recorded? <==>
      ParseInt(quantityInput).Some? && ParseCents(paymentInput).Some? && id in old(catalog.items)
      && old(catalog.items)[id].stock >= ParseInt(quantityInput).value
    ensures (ParseInt(quantityInput).Some? && ParseCents(paymentInput).Some? && !outcome.Recorded?) ==>
      outcome == InvalidGroceryOrStock
    ensures !outcome.Recorded? ==>
      catalog.items == old(catalog.items) && transactions.records == old(transactions.records)
    ensures outcome.Recorded? ==>
      var quantity := ParseInt(quantityInput).value;
      && outcome.sale == Sale(FormatIso(now.date), Clock24Text(now.clock), id, quantity,
                              ParseCents(paymentInput).value)
      && catalog.items == AfterSale(old(catalog.items), id, quantity)
      && transactions.records == old(transactions.records) + [outcome.sale]
  {
    var parsedQuantity := ParseInt(quantityInput);
    if parsedQuantity.None? {
      return Raised(ValueError);
    }
    var parsedPayment := ParseCents(paymentInput);
    if parsedPayment.None? {
      return Raised(ValueError);
    }
    var quantity := parsedQuantity.value;
    if id in catalog.items && catalog.items[id].stock >= quantity {
      var stamp := Split(Stamp24(now), ' ');
      Stamp24Pieces(now);
      var sale := Sale(stamp[0], stamp[1], id, quantity, parsedPayment.value);
      transactions.Append(sale);
      catalog.items := catalog.items[id := catalog.items[id].(stock := catalog.items[id].stock - quantity)];
      outcome := Recorded(sale);
    } else {
      outcome := InvalidGroceryOrStock;
    }
  }

  /**
   * The add-item branch of the manager menu: the same update as
   * add_new_grocery_item, storing the item under str(len + 1).
   */
  method ManagerAddItem(catalog: Catalog, name: string, priceInput: string, stockInput: string)
    returns (r: Result<string, PyError>)
    modifies catalog
    ensures r.Ok? <==> ParseCents(priceInput).Some? && ParseInt(stockInput).Some?
    ensures r.Ok? ==>
      && r.value == NextId(old(catalog.items))
      && catalog.items == WithNewItem(old(catalog.items),
                                      Item(name, ParseCents(priceInput).value, ParseInt(stockInput).value))
    ensures r.Err? ==> r.error == ValueError && catalog.items == old(catalog.items)
  {
    var newId := NatToString(|catalog.items| + 1);
    var price := ParseCents(priceInput);
    if price.None? {
      return Err(ValueError);
    }
    var stock := ParseInt(stockInput);
    if stock.None? {
      return Err(ValueError);
    }
    catalog.items := catalog.items[newId := Item(name, price.value, stock.value)];
    r := Ok(newId);
  }
}
