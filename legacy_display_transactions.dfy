/**
 * The sales reports of the earlier revision, up to the data they pass to
 * the chart. They catch almost nothing: a row whose date does not parse or
 * whose amounts do not convert ends the report with its exception, they
 * draw a chart even when nothing was sold, and the product report does not
 * check that the start month comes first.
 */
module LegacyDisplayTransactions {
  import opened Wrappers
  import opened Text
  import opened Calendar
  import opened Records
  import opened Aggregates
  import opened Ranking
  import opened DisplayTransactions

  /** The exception strptime(t['date'], "%d/%m/%Y") raises, if any. */
  function DateError(t: Row): Option<PyError>
  {
    match t.date
    case Absent => Some(KeyError)
    case NoneValue => Some(TypeError)
    case Text(text) => if ParseDayMonthYear(text).None? then Some(ValueError) else None
  }

  /** The bucket update of a counted row: value, stock and count, or the exception of float() or int(). */
  function Counted(k: string, t: Row): Effect
  {
    match FloatField(t.payment)
    case Err(x) => Fail(x)
    case Ok(p) =>
      match IntField(t.quantity)
      case Err(x) => Fail(x)
      case Ok(q) => Add(k, p, q)
  }

  // ---------------------------------------------------------------------------
  // display_monthly_sales

  /** One row of the earlier display_monthly_sales: nothing is caught. */
  function LegacyMonthlyEffect(t: Row, start: Date, end: Date): Effect
  {
    if DateError(t).Some? then Fail(DateError(t).value)
    else
      var d := ParseDayMonthYear(t.date.s).value;
      if Between(start, d, end) then Counted(ShortMonthKey(d), t) else Skip
  }

  function LegacyMonthlyEffects(rows: seq<Row>, start: Date, end: Date): (es: seq<Effect>)
    ensures |es| == |rows|
    ensures forall i :: 0 <= i < |rows| ==> es[i] == LegacyMonthlyEffect(rows[i], start, end)
  {
    seq(|rows|, i requires 0 <= i < |rows| => LegacyMonthlyEffect(rows[i], start, end))
  }

  /** What the earlier display_monthly_sales passes to the chart: there is no check for empty data. */
  function LegacyMonthlySales(transactions: seq<Row>, startMonth: string, endMonth: string): Report<map<string, Bucket>>
  {
    var start := ParseMonthYear(startMonth);
    var end := ParseMonthYear(endMonth);
    if start.None? || end.None? then NoChart(BadRangeFormat)
    else
      match Fold(LegacyMonthlyEffects(transactions, start.value, end.value))
      case Err(x) => Report.Raised(x)
      case Ok(m) => Chart(m)
  }

  /** The body of the earlier display_monthly_sales's loop. */
  method LegacyMonthlyRow(monthlySales: map<string, Bucket>, t: Row, start: Date, end: Date)
    returns (r: Result<map<string, Bucket>, PyError>)
    ensures var e := LegacyMonthlyEffect(t, start, end);
      r == if e.Fail? then Err(e.error) else Ok(Apply(monthlySales, e))
  {
    ghost var e := LegacyMonthlyEffect(t, start, end);
    var transactionDate := DateError(t);
    if transactionDate.Some? {
      assert e == Fail(transactionDate.value);
      return Err(transactionDate.value);
    }
    var d := ParseDayMonthYear(t.date.s).value;
    if !Between(start, d, end) {
      assert e == Skip;
      return Ok(monthlySales);
    }
    var month := ShortMonthKey(d);
    var m := monthlySales;
    if month !in m {
      m := m[month := Bucket(0, 0, 0)];
    }
    var payment := FloatField(t.payment);
    if payment.Err? {
      assert e == Fail(payment.error);
      return Err(payment.error);
    }
    var quantity := IntField(t.quantity);
    if quantity.Err? {
      assert e == Fail(quantity.error);
      return Err(quantity.error);
    }
    assert e == Add(month, payment.value, quantity.value);
    assert m == monthlySales[month := BucketOf(monthlySales, month)];
    var b := m[month];
    m := m[month := Bucket(b.value + payment.value, b.stock + quantity.value, b.count + 1)];
    assert m == Apply(monthlySales, e);
    r := Ok(m);
  }

  /** The earlier display_monthly_sales, up to the plot_graph call. */
  method LegacyDisplayMonthlySales(transactions: seq<Row>, startMonth: string, endMonth: string)
    returns (r: Report<map<string, Bucket>>)
    ensures r == LegacyMonthlySales(transactions, startMonth, endMonth)
  {
    var startDate := ParseMonthYear(startMonth);
    var endDate := ParseMonthYear(endMonth);
    if startDate.None? || endDate.None? {
      return NoChart(BadRangeFormat);
    }
    var start, end := startDate.value, endDate.value;
    ghost var es := LegacyMonthlyEffects(transactions, start, end);
    var monthlySales: map<string, Bucket> := map[];
    var i := 0;
    while i < |transactions|
      invariant 0 <= i <= |transactions|
      invariant Fold(es[..i]) == Ok(monthlySales)
    {
      FoldStep(es, i);
      var step := LegacyMonthlyRow(monthlySales, transactions[i], start, end);
      if step.Err? {
        FoldAbort(es, i);
        return Report.Raised(step.error);
      }
      monthlySales := step.value;
      i := i + 1;
    }
    assert es[..i] == es;
    r := Chart(monthlySales);
  }

  /** A row on which the earlier display_monthly_sales raises. */
  predicate LegacyMonthlyRowRaises(t: Row, start: Date, end: Date)
  {
    DateError(t).Some? || (InRange(t, start, end) && (FloatField(t.payment).Err? || IntField(t.quantity).Err?))
  }

  lemma LegacyMonthlyEffectRaises(t: Row, start: Date, end: Date)
    ensures LegacyMonthlyEffect(t, start, end).Fail? <==> LegacyMonthlyRowRaises(t, start, end)
  {
  }

  lemma LegacyMonthlyEffectTouches(t: Row, start: Date, end: Date, k: string)
    requires !LegacyMonthlyEffect(t, start, end).Fail?
    ensures Touches(LegacyMonthlyEffect(t, start, end), k) <==> InShortMonth(t, start, end, k)
    ensures Touches(LegacyMonthlyEffect(t, start, end), k) ==> LegacyMonthlyEffect(t, start, end).Add?
  {
  }

  /**
   * The meaning of the earlier display_monthly_sales for well-formed
   * months: it raises exactly when some row raises, and otherwise always
   * charts, even an empty dict; the chart has a bucket for exactly the
   * "%y-%m" months of the rows in range, each holding the summed payments,
   * quantities and count.
   */
  lemma LegacyMonthlySalesMeaning(transactions: seq<Row>, startMonth: string, endMonth: string, start: Date, end: Date)
    requires ParseMonthYear(startMonth) == Some(start) && ParseMonthYear(endMonth) == Some(end)
    ensures var r := LegacyMonthlySales(transactions, startMonth, endMonth);
      var es := LegacyMonthlyEffects(transactions, start, end);
      && (r.Raised? <==> exists i :: 0 <= i < |transactions| && LegacyMonthlyRowRaises(transactions[i], start, end))
      && (r.Chart? <==> !r.Raised?)
      && (r.Chart? ==> forall k :: k in r.data <==>
            exists i :: 0 <= i < |transactions| && InShortMonth(transactions[i], start, end, k))
      && (r.Chart? ==> forall k :: k in r.data ==>
            r.data[k] == Bucket(ValueSum(es, k), StockSum(es, k), CountSum(es, k)))
  {
    var es := LegacyMonthlyEffects(transactions, start, end);
    FoldFails(es);
    forall i | 0 <= i < |transactions| ensures es[i].Fail? <==> LegacyMonthlyRowRaises(transactions[i], start, end) {
      LegacyMonthlyEffectRaises(transactions[i], start, end);
    }
    if Fold(es).Ok? {
      FoldSums(es);
      forall i, k | 0 <= i < |transactions|
        ensures Touches(es[i], k) <==> InShortMonth(transactions[i], start, end, k)
      {
        assert !es[i].Fail?;
        LegacyMonthlyEffectTouches(transactions[i], start, end, k);
      }
    }
  }

  // ---------------------------------------------------------------------------
  // display_product_sales

  /**
   * One row of the earlier display_product_sales: nothing is caught, and
   * t['id'] is read for every row whose date parses, in range or not.
   */
  function LegacyProductEffect(t: Row, groceryId: string, start: Date, end: Date): Effect
  {
    if DateError(t).Some? then Fail(DateError(t).value)
    else if t.id.Absent? then Fail(KeyError)
    else
      var d := ParseDayMonthYear(t.date.s).value;
      if t.id == Text(groceryId) && Between(start, d, end) then Counted(LongMonthKey(d), t) else Skip
  }

  function LegacyProductEffects(rows: seq<Row>, groceryId: string, start: Date, end: Date): (es: seq<Effect>)
    ensures |es| == |rows|
    ensures forall i :: 0 <= i < |rows| ==> es[i] == LegacyProductEffect(rows[i], groceryId, start, end)
  {
    seq(|rows|, i requires 0 <= i < |rows| => LegacyProductEffect(rows[i], groceryId, start, end))
  }

  /** What the earlier display_product_sales passes to the chart: no order check, no check for empty data. */
  function LegacyProductSales(transactions: seq<Row>, groceries: map<string, Item>, groceryId: string,
                              startMonth: string, endMonth: string): Report<map<string, Bucket>>
  {
    var start := ParseMonthYear(startMonth);
    var end := ParseMonthYear(endMonth);
    if groceryId !in groceries then NoChart(UnknownProduct)
    else if start.None? || end.None? then NoChart(BadRangeFormat)
    else
      match Fold(LegacyProductEffects(transactions, groceryId, start.value, end.value))
      case Err(x) => Report.Raised(x)
      case Ok(m) => Chart(m)
  }

  /** The body of the earlier display_product_sales's loop. */
  method LegacyProductRow(monthlySales: map<string, Bucket>, t: Row, groceryId: string, start: Date, end: Date)
    returns (r: Result<map<string, Bucket>, PyError>)
    ensures var e := LegacyProductEffect(t, groceryId, start, end);
      r == if e.Fail? then Err(e.error) else Ok(Apply(monthlySales, e))
  {
    ghost var e := LegacyProductEffect(t, groceryId, start, end);
    var transactionDate := DateError(t);
    if transactionDate.Some? {
      assert e == Fail(transactionDate.value);
      return Err(transactionDate.value);
    }
    if t.id.Absent? {
      assert e == Fail(KeyError);
      return Err(KeyError);
    }
    var d := ParseDayMonthYear(t.date.s).value;
    if !(t.id == Text(groceryId) && Between(start, d, end)) {
      assert e == Skip;
      return Ok(monthlySales);
    }
    var month := LongMonthKey(d);
    var m := monthlySales;
    if month !in m {
      m := m[month := Bucket(0, 0, 0)];
    }
    var payment := FloatField(t.payment);
    if payment.Err? {
      assert e == Fail(payment.error);
      return Err(payment.error);
    }
    var quantity := IntField(t.quantity);
    if quantity.Err? {
      assert e == Fail(quantity.error);
      return Err(quantity.error);
    }
    assert e == Add(month, payment.value, quantity.value);
    assert m == monthlySales[month := BucketOf(monthlySales, month)];
    var b := m[month];
    m := m[month := Bucket(b.value + payment.value, b.stock + quantity.value, b.count + 1)];
    assert m == Apply(monthlySales, e);
    r := Ok(m);
  }

  /** The earlier display_product_sales, up to the plot_graph call. */
  method LegacyDisplayProductSales(transactions: seq<Row>, groceries: map<string, Item>, groceryId: string,
                                   startMonth: string, endMonth: string)
    returns (r: Report<map<string, Bucket>>)
    ensures r == LegacyProductSales(transactions, groceries, groceryId, startMonth, endMonth)
  {
    if groceryId !in groceries {
      return NoChart(UnknownProduct);
    }
    var startDate := ParseMonthYear(startMonth);
    var endDate := ParseMonthYear(endMonth);
    if startDate.None? || endDate.None? {
      return NoChart(BadRangeFormat);
    }
    var start, end := startDate.value, endDate.value;
    ghost var es := LegacyProductEffects(transactions, groceryId, start, end);
    var monthlySales: map<string, Bucket> := map[];
    var i := 0;
    while i < |transactions|
      invariant 0 <= i <= |transactions|
      invariant Fold(es[..i]) == Ok(monthlySales)
    {
      FoldStep(es, i);
      var step := LegacyProductRow(monthlySales, transactions[i], groceryId, start, end);
      if step.Err? {
        FoldAbort(es, i);
        return Report.Raised(step.error);
      }
      monthlySales := step.value;
      i := i + 1;
    }
    assert es[..i] == es;
    r := Chart(monthlySales);
  }

  /** A row on which the earlier display_product_sales raises. */
  predicate LegacyProductRowRaises(t: Row, groceryId: string, start: Date, end: Date)
  {
    || DateError(t).Some?
    || t.id.Absent?
    || (t.id == Text(groceryId) && InRange(t, start, end) && (FloatField(t.payment).Err? || IntField(t.quantity).Err?))
  }

  lemma LegacyProductEffectRaises(t: Row, groceryId: string, start: Date, end: Date)
    ensures LegacyProductEffect(t, groceryId, start, end).Fail? <==> LegacyProductRowRaises(t, groceryId, start, end)
  {
  }

  lemma LegacyProductEffectTouches(t: Row, groceryId: string, start: Date, end: Date, k: string)
    requires !LegacyProductEffect(t, groceryId, start, end).Fail?
    ensures Touches(LegacyProductEffect(t, groceryId, start, end), k) <==> InProductMonth(t, groceryId, start, end, k)
  {
  }

  /**
   * The meaning of the earlier display_product_sales for a known product and
   * well-formed months: it raises exactly when some row raises, and
   * otherwise charts a bucket for exactly the "%Y-%m" months of the
   * product's rows in range, with the summed payments, quantities and count.
   */
  lemma LegacyProductSalesMeaning(transactions: seq<Row>, groceries: map<string, Item>, groceryId: string,
                                  startMonth: string, endMonth: string, start: Date, end: Date)
    requires groceryId in groceries
    requires ParseMonthYear(startMonth) == Some(start) && ParseMonthYear(endMonth) == Some(end)
    ensures var r := LegacyProductSales(transactions, groceries, groceryId, startMonth, endMonth);
      var es := LegacyProductEffects(transactions, groceryId, start, end);
      && (r.Raised? <==>
            exists i :: 0 <= i < |transactions| && LegacyProductRowRaises(transactions[i], groceryId, start, end))
      && (r.Chart? <==> !r.Raised?)
      && (r.Chart? ==> forall k :: k in r.data <==>
            exists i :: 0 <= i < |transactions| && InProductMonth(transactions[i], groceryId, start, end, k))
      && (r.Chart? ==> forall k :: k in r.data ==>
            r.data[k] == Bucket(ValueSum(es, k), StockSum(es, k), CountSum(es, k)))
  {
    var es := LegacyProductEffects(transactions, groceryId, start, end);
    FoldFails(es);
    forall i | 0 <= i < |transactions|
      ensures es[i].Fail? <==> LegacyProductRowRaises(transactions[i], groceryId, start, end)
    {
      LegacyProductEffectRaises(transactions[i], groceryId, start, end);
    }
    if Fold(es).Ok? {
      FoldSums(es);
      forall i, k | 0 <= i < |transactions|
        ensures Touches(es[i], k) <==> InProductMonth(transactions[i], groceryId, start, end, k)
      {
        assert !es[i].Fail?;
        LegacyProductEffectTouches(transactions[i], groceryId, start, end, k);
      }
    }
  }

  /** With the start month after the end month no row is in range, so the report charts an empty dict or raises. */
  lemma LegacyProductReversedRange(transactions: seq<Row>, groceries: map<string, Item>, groceryId: string,
                                   startMonth: string, endMonth: string, start: Date, end: Date)
    requires groceryId in groceries
    requires ParseMonthYear(startMonth) == Some(start) && ParseMonthYear(endMonth) == Some(end)
    requires !OnOrBefore(start, end)
    ensures var r := LegacyProductSales(transactions, groceries, groceryId, startMonth, endMonth);
      r.Raised? || r == Chart(map[])
  {
    var es := LegacyProductEffects(transactions, groceryId, start, end);
    forall i | 0 <= i < |transactions| ensures !InRange(transactions[i], start, end) {
      if transactions[i].date.Text? && ParseDayMonthYear(transactions[i].date.s).Some? {
        var d := ParseDayMonthYear(transactions[i].date.s).value;
        OnOrBeforeTotalOrder(start, d, end);
      }
    }
    LegacyProductSalesMeaning(transactions, groceries, groceryId, startMonth, endMonth, start, end);
    if Fold(es).Ok? {
      var m := Fold(es).value;
      forall k ensures k !in m {
        assert forall i :: 0 <= i < |transactions| ==> !InProductMonth(transactions[i], groceryId, start, end, k);
      }
      assert m == map[];
    }
  }

  // ---------------------------------------------------------------------------
  // display_total_sales

  /**
   * One row of the earlier display_total_sales. TypeError and ValueError are
   * caught, KeyError is not: a missing date, id or payment raises, a None or
   * unparseable date or payment skips the row, and a None id becomes a key
   * of its own. The id is not checked against the catalog here.
   */
  function LegacyTotalContribution(t: Row, start: Date, end: Date): Contribution<Option<string>>
  {
    match t.date
    case Absent => Abort(KeyError)
    case NoneValue => Drop
    case Text(text) =>
      match ParseDayMonthYear(text)
      case None => Drop
      case Some(d) =>
        if !Between(start, d, end) then Drop
        else if t.id.Absent? then Abort(KeyError)
        else
          var key := if t.id.Text? then Some(t.id.s) else None;
          match FloatField(t.payment)
          case Err(x) => if x == KeyError then Abort(KeyError) else Drop
          case Ok(c) => Accept(key, c)
  }

  function LegacyTotalContributions(rows: seq<Row>, start: Date, end: Date): (cs: seq<Contribution<Option<string>>>)
    ensures |cs| == |rows|
    ensures forall i :: 0 <= i < |rows| ==> cs[i] == LegacyTotalContribution(rows[i], start, end)
  {
    seq(|rows|, i requires 0 <= i < |rows| => LegacyTotalContribution(rows[i], start, end))
  }

  /** Every listed product is a catalog id. */
  predicate AllKnown(sorted: seq<(Option<string>, int)>, groceries: map<string, Item>)
  {
    forall j :: 0 <= j < |sorted| ==> sorted[j].0.Some? && sorted[j].0.value in groceries
  }

  /** The chart data once every key is a catalog id: the sorted pairs and the names in that order. */
  function KnownRanking(sorted: seq<(Option<string>, int)>, groceries: map<string, Item>): (seq<(string, int)>, seq<string>)
    requires AllKnown(sorted, groceries)
  {
    (seq(|sorted|, j requires 0 <= j < |sorted| => (sorted[j].0.value, sorted[j].1)),
     seq(|sorted|, j requires 0 <= j < |sorted| => groceries[sorted[j].0.value].name))
  }

  /** After the loop: sort the totals, then look up each product's name, raising KeyError for an unknown id. */
  function LegacyRanking(t: Tally<Option<string>>, groceries: map<string, Item>): Report<(seq<(string, int)>, seq<string>)>
    requires forall k :: k in t.order ==> k in t.totals
  {
    var sorted := SortByTotalDescending(Items(t));
    if AllKnown(sorted, groceries) then Chart(KnownRanking(sorted, groceries)) else Report.Raised(KeyError)
  }

  /**
   * What the earlier display_total_sales passes to the chart: the name
   * lookup raises KeyError for a key that is not in the catalog, and an
   * empty result is charted too.
   */
  function LegacyTotalSales(transactions: seq<Row>, groceries: map<string, Item>, startDate: string, endDate: string)
    : Report<(seq<(string, int)>, seq<string>)>
  {
    var start := ParseDayMonthYear(startDate);
    var end := ParseDayMonthYear(endDate);
    if start.None? || end.None? then NoChart(BadRangeFormat)
    else
      var cs := LegacyTotalContributions(transactions, start.value, end.value);
      match TallyFold(cs)
      case Err(x) => Report.Raised(x)
      case Ok(t) =>
        TallySums(cs);
        LegacyRanking(t, groceries)
  }

  /** The body of the earlier display_total_sales's loop. */
  method LegacyTotalRow(grocerySales: Tally<Option<string>>, t: Row, start: Date, end: Date)
    returns (r: Result<Tally<Option<string>>, PyError>)
    ensures r == match LegacyTotalContribution(t, start, end)
                 case Drop => Ok(grocerySales)
                 case Accept(k, a) => Ok(TallyAdd(grocerySales, k, a))
                 case Abort(x) => Err(x)
  {
    if t.date.Absent? {
      return Err(KeyError);
    }
    r := Ok(grocerySales);
    if t.date.NoneValue? {
      return;
    }
    var transactionDate := ParseDayMonthYear(t.date.s);
    if transactionDate.None? || !Between(start, transactionDate.value, end) {
      return;
    }
    if t.id.Absent? {
      return Err(KeyError);
    }
    var groceryId := if t.id.Text? then Some(t.id.s) else None;
    var payment := FloatField(t.payment);
    if payment.Err? {
      if payment.error == KeyError {
        r := Err(KeyError);
      }
      return;
    }
    if groceryId in grocerySales.totals {
      r := Ok(Tally(grocerySales.totals[groceryId := grocerySales.totals[groceryId] + payment.value], grocerySales.order));
    } else {
      r := Ok(Tally(grocerySales.totals[groceryId := payment.value], grocerySales.order + [groceryId]));
    }
  }

  /** The earlier display_total_sales, up to the plot_bar_chart call. */
  method LegacyDisplayTotalSales(transactions: seq<Row>, groceries: map<string, Item>, startDate: string, endDate: string)
    returns (r: Report<(seq<(string, int)>, seq<string>)>)
    ensures r == LegacyTotalSales(transactions, groceries, startDate, endDate)
  {
    var start := ParseDayMonthYear(startDate);
    var end := ParseDayMonthYear(endDate);
    if start.None? || end.None? {
      return NoChart(BadRangeFormat);
    }
    ghost var cs := LegacyTotalContributions(transactions, start.value, end.value);
    var grocerySales: Tally<Option<string>> := Tally(map[], []);
    var i := 0;
    while i < |transactions|
      invariant 0 <= i <= |transactions|
      invariant TallyFold(cs[..i]) == Ok(grocerySales)
    {
      TallyStep(cs, i);
      var step := LegacyTotalRow(grocerySales, transactions[i], start.value, end.value);
      if step.Err? {
        TallyAbort(cs, i);
        return Report.Raised(step.error);
      }
      grocerySales := step.value;
      i := i + 1;
    }
    assert cs[..i] == cs;
    TallySums(cs);
    var sortedSales := SortByTotalDescending(Items(grocerySales));
    var groceryNames := GroceryNames(sortedSales, groceries);
    if groceryNames.Err? {
      return Report.Raised(groceryNames.error);
    }
    var sales := seq(|sortedSales|, x requires 0 <= x < |sortedSales| => (sortedSales[x].0.value, sortedSales[x].1));
    r := Chart((sales, groceryNames.value));
  }

  /** [groceries[grocery_id]['name'] for grocery_id, _ in sorted_sales]: the names in order, or KeyError. */
  method GroceryNames(sortedSales: seq<(Option<string>, int)>, groceries: map<string, Item>)
    returns (r: Result<seq<string>, PyError>)
    ensures r.Ok? <==> AllKnown(sortedSales, groceries)
    ensures r.Ok? ==> r.value == KnownRanking(sortedSales, groceries).1
    ensures r.Err? ==> r.error == KeyError
  {
    var groceryNames: seq<string> := [];
    var j := 0;
    while j < |sortedSales|
      invariant 0 <= j <= |sortedSales|
      invariant forall x :: 0 <= x < j ==> sortedSales[x].0.Some? && sortedSales[x].0.value in groceries
      invariant |groceryNames| == j
      invariant forall x :: 0 <= x < j ==> groceryNames[x] == groceries[sortedSales[x].0.value].name
    {
      var groceryId := sortedSales[j].0;
      if groceryId.None? || groceryId.value !in groceries {
        return Err(KeyError);
      }
      groceryNames := groceryNames + [groceries[groceryId.value].name];
      j := j + 1;
    }
    r := Ok(groceryNames);
  }

  /** A row on which the earlier display_total_sales raises: a missing date, or a missing id or payment in range. */
  predicate LegacyTotalRowRaises(t: Row, start: Date, end: Date)
  {
    t.date.Absent? || (InRange(t, start, end) && (t.id.Absent? || t.payment.Absent?))
  }

  /** A row the earlier display_total_sales adds to the total of its id. */
  predicate LegacyTotalRowCounts(t: Row, start: Date, end: Date)
  {
    InRange(t, start, end) && !t.id.Absent? && FloatField(t.payment).Ok?
  }

  /** The key a row's id becomes: the id text, or None. */
  function KeyOf(t: Row): Option<string>
  {
    if t.id.Text? then Some(t.id.s) else None
  }

  lemma LegacyTotalContributionCases(t: Row, start: Date, end: Date)
    ensures LegacyTotalContribution(t, start, end).Abort? <==> LegacyTotalRowRaises(t, start, end)
    ensures LegacyTotalContribution(t, start, end).Abort? ==> LegacyTotalContribution(t, start, end).error == KeyError
    ensures LegacyTotalContribution(t, start, end).Accept? <==> LegacyTotalRowCounts(t, start, end)
    ensures LegacyTotalContribution(t, start, end).Accept? ==>
      LegacyTotalContribution(t, start, end) == Accept(KeyOf(t), FloatField(t.payment).value)
  {
  }

  /** The keys the earlier display_total_sales adds to are those of the rows it counts. */
  lemma LegacyTotalAcceptedIds(rows: seq<Row>, start: Date, end: Date, k: Option<string>)
    ensures k in AcceptedIds(LegacyTotalContributions(rows, start, end)) <==>
      exists i :: 0 <= i < |rows| && LegacyTotalRowCounts(rows[i], start, end) && KeyOf(rows[i]) == k
  {
    var cs := LegacyTotalContributions(rows, start, end);
    AcceptedIdsMembership(cs, k);
    forall i | 0 <= i < |rows|
      ensures cs[i].Accept? && cs[i].id == k <==> LegacyTotalRowCounts(rows[i], start, end) && KeyOf(rows[i]) == k
    {
      LegacyTotalContributionCases(rows[i], start, end);
    }
  }

  /** A counted row whose id is None or unknown to the catalog. */
  predicate UnknownCounted(t: Row, groceries: map<string, Item>, start: Date, end: Date)
  {
    LegacyTotalRowCounts(t, start, end) && !(t.id.Text? && t.id.s in groceries)
  }

  /** The totals fold raises exactly when some row raises, and then KeyError. */
  lemma LegacyTotalFoldRaises(rows: seq<Row>, start: Date, end: Date)
    ensures var f := TallyFold(LegacyTotalContributions(rows, start, end));
      && (f.Err? <==> exists i :: 0 <= i < |rows| && LegacyTotalRowRaises(rows[i], start, end))
      && (f.Err? ==> f.error == KeyError)
  {
    var cs := LegacyTotalContributions(rows, start, end);
    TallyFails(cs);
    forall i | 0 <= i < |rows|
      ensures cs[i].Abort? <==> LegacyTotalRowRaises(rows[i], start, end)
      ensures cs[i].Abort? ==> cs[i].error == KeyError
    {
      LegacyTotalContributionCases(rows[i], start, end);
    }
  }

  /** An id the name lookup accepts. */
  predicate KnownId(k: Option<string>, groceries: map<string, Item>)
  {
    k.Some? && k.value in groceries
  }

  /** Without an exception in the loop, the name lookup succeeds exactly when every accepted id is in the catalog. */
  lemma RankingKnown(cs: seq<Contribution<Option<string>>>, groceries: map<string, Item>)
    requires TallyFold(cs).Ok?
    ensures var t := TallyFold(cs).value;
      (forall k :: k in t.order ==> k in t.totals) &&
      (AllKnown(SortByTotalDescending(Items(t)), groceries) <==>
        forall k :: k in AcceptedIds(cs) ==> KnownId(k, groceries))
  {
    var t := TallyFold(cs).value;
    RankedTotals(cs);
    var sorted := SortByTotalDescending(Items(t));
    if exists k :: k in AcceptedIds(cs) && !KnownId(k, groceries) {
      var k :| k in AcceptedIds(cs) && !KnownId(k, groceries);
      assert (k, AmountSum(cs, k)) in sorted;
      var j :| 0 <= j < |sorted| && sorted[j] == (k, AmountSum(cs, k));
      assert !(sorted[j].0.Some? && sorted[j].0.value in groceries);
    } else {
      forall j | 0 <= j < |sorted| ensures sorted[j].0.Some? && sorted[j].0.value in groceries {
        assert (sorted[j].0, sorted[j].1) in sorted;
      }
    }
  }

  /** When every accepted id is known, the ranking is largest total first, with the catalog name of each id. */
  lemma RankingKnownOrder(cs: seq<Contribution<Option<string>>>, groceries: map<string, Item>)
    requires TallyFold(cs).Ok?
    ensures var t := TallyFold(cs).value;
      (forall k :: k in t.order ==> k in t.totals) &&
      var sorted := SortByTotalDescending(Items(t));
      AllKnown(sorted, groceries) ==>
        var d := KnownRanking(sorted, groceries);
        && NonIncreasing(d.0)
        && DistinctKeys(d.0)
        && |d.1| == |d.0|
        && (forall j :: 0 <= j < |d.0| ==> d.0[j].0 in groceries && d.1[j] == groceries[d.0[j].0].name)
  {
    var t := TallyFold(cs).value;
    RankedTotals(cs);
    var sorted := SortByTotalDescending(Items(t));
    if AllKnown(sorted, groceries) {
      var d := KnownRanking(sorted, groceries);
      forall i, j | 0 <= i < j < |d.0| ensures d.0[i].1 >= d.0[j].1 && d.0[i].0 != d.0[j].0 {
        assert d.0[i] == (sorted[i].0.value, sorted[i].1) && d.0[j] == (sorted[j].0.value, sorted[j].1);
      }
    }
  }

  /** When every accepted id is known, the ranking lists each accepted id once, with the sum of its amounts. */
  lemma RankingKnownMembers(cs: seq<Contribution<Option<string>>>, groceries: map<string, Item>)
    requires TallyFold(cs).Ok?
    ensures var t := TallyFold(cs).value;
      (forall k :: k in t.order ==> k in t.totals) &&
      var sorted := SortByTotalDescending(Items(t));
      AllKnown(sorted, groceries) ==>
        forall k, v :: (k, v) in KnownRanking(sorted, groceries).0 <==>
          Some(k) in AcceptedIds(cs) && v == AmountSum(cs, Some(k))
  {
    var t := TallyFold(cs).value;
    RankedTotals(cs);
    var sorted := SortByTotalDescending(Items(t));
    if AllKnown(sorted, groceries) {
      KnownRankingPairs(sorted, groceries);
    }
  }

  /** Dropping the Some of every key keeps exactly the pairs of the sorted list. */
  lemma KnownRankingPairs(sorted: seq<(Option<string>, int)>, groceries: map<string, Item>)
    requires AllKnown(sorted, groceries)
    ensures forall k, v :: (k, v) in KnownRanking(sorted, groceries).0 <==> (Some(k), v) in sorted
  {
    var d := KnownRanking(sorted, groceries).0;
    forall k, v ensures (k, v) in d <==> (Some(k), v) in sorted {
      if (k, v) in d {
        var j :| 0 <= j < |d| && d[j] == (k, v);
        assert sorted[j] == (Some(k), v);
      }
      if (Some(k), v) in sorted {
        var j :| 0 <= j < |sorted| && sorted[j] == (Some(k), v);
        assert d[j] == (k, v);
      }
    }
  }

  /**
   * For well-formed dates, the earlier display_total_sales raises exactly
   * when some row raises, or some counted row's id is None or not in the
   * catalog; every exception it lets escape is a KeyError, and otherwise it
   * always charts.
   */
  lemma LegacyTotalSalesRaises(transactions: seq<Row>, groceries: map<string, Item>, startDate: string, endDate: string,
                               start: Date, end: Date)
    requires ParseDayMonthYear(startDate) == Some(start) && ParseDayMonthYear(endDate) == Some(end)
    ensures var r := LegacyTotalSales(transactions, groceries, startDate, endDate);
      && (r.Raised? <==>
            (exists i :: 0 <= i < |transactions| && LegacyTotalRowRaises(transactions[i], start, end))
            || (exists i :: 0 <= i < |transactions| && UnknownCounted(transactions[i], groceries, start, end)))
      && (r.Raised? ==> r.error == KeyError)
      && (r.Chart? <==> !r.Raised?)
  {
    LegacyTotalFoldRaises(transactions, start, end);
    var cs := LegacyTotalContributions(transactions, start, end);
    if TallyFold(cs).Ok? {
      RankingKnown(cs, groceries);
      forall k ensures k in AcceptedIds(cs) <==>
        exists i :: 0 <= i < |transactions| && LegacyTotalRowCounts(transactions[i], start, end) && KeyOf(transactions[i]) == k
      {
        LegacyTotalAcceptedIds(transactions, start, end, k);
      }
      assert (exists k :: k in AcceptedIds(cs) && !KnownId(k, groceries)) <==>
        exists i :: 0 <= i < |transactions| && UnknownCounted(transactions[i], groceries, start, end)
      by {
        if exists i :: 0 <= i < |transactions| && UnknownCounted(transactions[i], groceries, start, end) {
          var i :| 0 <= i < |transactions| && UnknownCounted(transactions[i], groceries, start, end);
          assert KeyOf(transactions[i]) in AcceptedIds(cs) && !KnownId(KeyOf(transactions[i]), groceries);
        }
      }
    }
  }

  /**
   * For well-formed dates, a chart of the earlier display_total_sales lists
   * each counted id once, with the sum of its counted payments, largest
   * total first, and beside each its catalog name; it may be empty.
   */
  lemma LegacyTotalSalesChart(transactions: seq<Row>, groceries: map<string, Item>, startDate: string, endDate: string,
                              start: Date, end: Date)
    requires ParseDayMonthYear(startDate) == Some(start) && ParseDayMonthYear(endDate) == Some(end)
    ensures var r := LegacyTotalSales(transactions, groceries, startDate, endDate);
      var cs := LegacyTotalContributions(transactions, start, end);
      r.Chart? ==>
        && NonIncreasing(r.data.0)
        && DistinctKeys(r.data.0)
        && |r.data.1| == |r.data.0|
        && (forall j :: 0 <= j < |r.data.0| ==> r.data.0[j].0 in groceries && r.data.1[j] == groceries[r.data.0[j].0].name)
        && (forall k, v :: (k, v) in r.data.0 <==>
              (exists i :: 0 <= i < |transactions| && LegacyTotalRowCounts(transactions[i], start, end)
                           && transactions[i].id == Text(k))
              && v == AmountSum(cs, Some(k)))
  {
    var cs := LegacyTotalContributions(transactions, start, end);
    if TallyFold(cs).Ok? {
      RankingKnownOrder(cs, groceries);
      RankingKnownMembers(cs, groceries);
      forall k ensures Some(k) in AcceptedIds(cs) <==>
        exists i :: 0 <= i < |transactions| && LegacyTotalRowCounts(transactions[i], start, end)
                    && transactions[i].id == Text(k)
      {
        LegacyTotalAcceptedIds(transactions, start, end, Some(k));
        forall i | 0 <= i < |transactions| ensures KeyOf(transactions[i]) == Some(k) <==> transactions[i].id == Text(k) {
        }
      }
    }
  }

  /** A sale of product "1" on 1 March 2024 with a payment of "-5". */
  function SignedPaymentRow(): Row
  {
    Row(Text("1/3/2024"), Text("9:00:00 AM"), Text("1"), Text("1"), Text("-5"))
  }

  /** The earlier report counts a signed payment: float("-5") is -5.0. */
  lemma LegacyCountsSignedPayment()
    ensures LegacyTotalContribution(SignedPaymentRow(), Date(1, 3, 2024), Date(1, 3, 2024)) == Accept(Some("1"), -500)
  {
    UnpaddedFieldsAccepted();
    MinusFiveCents();
  }

  lemma MinusFiveCents()
    ensures ParseCents("-5") == Some(-500)
  {
    SplitNoSeparator("5", '.');
    assert DigitsValue("5") == 5 by { assert "5"[..0] == ""; }
    assert "-5"[1..] == "5";
  }

  /** The current report skips it: "-5" is not a plain decimal. */
  lemma CurrentSkipsSignedPayment()
    ensures TotalContribution(SignedPaymentRow(), map["1" := Item("Milk", 250, 3)], Date(1, 3, 2024), Date(1, 3, 2024)) == Drop
  {
    UnpaddedFieldsAccepted();
    assert RemoveFirst("-5", '.') == "-5";
  }
}
