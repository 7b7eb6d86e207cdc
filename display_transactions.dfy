/**
 * The sales reports of the current revision, up to the data they pass to
 * the chart: monthly sales over a range of months, one product's monthly
 * sales, and total sales per product over a range of days. Each report
 * validates its arguments, then folds the transaction rows into a dict,
 * skipping the rows its exception handlers catch.
 */
module DisplayTransactions {
  import opened Wrappers
  import opened Text
  import opened Calendar
  import opened Records
  import opened Aggregates
  import opened Ranking

  /** The date of t, when its text parses as "%d/%m/%Y" and lies in [start, end]. */
  predicate DatedIn(t: Row, start: Date, end: Date, d: Date)
  {
    t.date.Text? && ParseDayMonthYear(t.date.s) == Some(d) && Between(start, d, end)
  }

  /** t has a date in "%d/%m/%Y" form that lies in [start, end]. */
  predicate InRange(t: Row, start: Date, end: Date)
  {
    t.date.Text? && ParseDayMonthYear(t.date.s).Some? && Between(start, ParseDayMonthYear(t.date.s).value, end)
  }

  /** t is dated in [start, end] within the month whose "%y-%m" key is k. */
  predicate InShortMonth(t: Row, start: Date, end: Date, k: string)
  {
    t.date.Text? && ParseDayMonthYear(t.date.s).Some?
    && DatedIn(t, start, end, ParseDayMonthYear(t.date.s).value)
    && ShortMonthKey(ParseDayMonthYear(t.date.s).value) == k
  }

  // ---------------------------------------------------------------------------
  // display_monthly_sales

  /**
   * One row of display_monthly_sales. Only ValueError is caught: a missing
   * date (KeyError) or a None date or payment or quantity (TypeError)
   * escapes. An unparseable date skips the row; an in-range row opens its
   * "%y-%m" bucket before payment and quantity are converted (a missing one
   * counts as 0), so a conversion failure leaves that bucket, possibly empty.
   */
  function MonthlyEffect(t: Row, start: Date, end: Date): Effect
  {
    match t.date
    case Absent => Fail(KeyError)
    case NoneValue => Fail(TypeError)
    case Text(text) =>
      match ParseDayMonthYear(text)
      case None => Skip
      case Some(d) =>
        if !Between(start, d, end) then Skip
        else
          var k := ShortMonthKey(d);
          match FloatFieldOrZero(t.payment)
          case Err(x) => if x == ValueError then Open(k) else Fail(x)
          case Ok(p) =>
            match IntFieldOrZero(t.quantity)
            case Err(x) => if x == ValueError then Open(k) else Fail(x)
            case Ok(q) => Add(k, p, q)
  }

  function MonthlyEffects(rows: seq<Row>, start: Date, end: Date): (es: seq<Effect>)
    ensures |es| == |rows|
    ensures forall i :: 0 <= i < |rows| ==> es[i] == MonthlyEffect(rows[i], start, end)
  {
    seq(|rows|, i requires 0 <= i < |rows| => MonthlyEffect(rows[i], start, end))
  }

  /** What display_monthly_sales passes to the chart, or why it does not. */
  function MonthlySales(transactions: seq<Row>, startMonth: string, endMonth: string): Report<map<string, Bucket>>
  {
    var start := ParseMonthYear(startMonth);
    var end := ParseMonthYear(endMonth);
    if start.None? || end.None? then NoChart(BadRangeFormat)
    else if |transactions| == 0 then NoChart(NoTransactions)
    else
      match Fold(MonthlyEffects(transactions, start.value, end.value))
      case Err(x) => Report.Raised(x)
      case Ok(m) => if |m| == 0 then NoChart(NoSalesInRange) else Chart(m)
  }

  /** The body of display_monthly_sales's loop: the effect of one row on the month dict, or its exception. */
  method MonthlyRow(monthlySales: map<string, Bucket>, t: Row, start: Date, end: Date)
    returns (r: Result<map<string, Bucket>, PyError>)
    ensures var e := MonthlyEffect(t, start, end);
      r == if e.Fail? then Err(e.error) else Ok(Apply(monthlySales, e))
  {
    ghost var e := MonthlyEffect(t, start, end);
    if t.date.Absent? {
      assert e == Fail(KeyError);
      return Err(KeyError);
    } else if t.date.NoneValue? {
      assert e == Fail(TypeError);
      return Err(TypeError);
    }
    var m := monthlySales;
    var transactionDate := ParseDayMonthYear(t.date.s);
    if transactionDate.Some? && Between(start, transactionDate.value, end) {
      var month := ShortMonthKey(transactionDate.value);
      if month !in m {
        m := m[month := Bucket(0, 0, 0)];
      }
      assert m == monthlySales[month := BucketOf(monthlySales, month)];
      var payment := FloatFieldOrZero(t.payment);
      if payment.Err? {
        if payment.error != ValueError {
          assert e == Fail(payment.error);
          return Err(payment.error);
        }
        assert e == Open(month);
        return Ok(m);
      }
      var quantity := IntFieldOrZero(t.quantity);
      if quantity.Err? {
        if quantity.error != ValueError {
          assert e == Fail(quantity.error);
          return Err(quantity.error);
        }
        assert e == Open(month);
        return Ok(m);
      }
      assert e == Add(month, payment.value, quantity.value);
      var b := m[month];
      m := m[month := Bucket(b.value + payment.value, b.stock + quantity.value, b.count + 1)];
      assert m == Apply(monthlySales, e);
    } else {
      assert e == Skip;
    }
    r := Ok(m);
  }

  /** display_monthly_sales, up to the plot_graph call. */
  method DisplayMonthlySales(transactions: seq<Row>, startMonth: string, endMonth: string)
    returns (r: Report<map<string, Bucket>>)
    ensures r == MonthlySales(transactions, startMonth, endMonth)
  {
    var startDate := ParseMonthYear(startMonth);
    var endDate := ParseMonthYear(endMonth);
    if startDate.None? || endDate.None? {
      return NoChart(BadRangeFormat);
    }
    if |transactions| == 0 {
      return NoChart(NoTransactions);
    }
    var start, end := startDate.value, endDate.value;
    ghost var es := MonthlyEffects(transactions, start, end);
    var monthlySales: map<string, Bucket> := map[];
    var i := 0;
    while i < |transactions|
      invariant 0 <= i <= |transactions|
      invariant Fold(es[..i]) == Ok(monthlySales)
    {
      FoldStep(es, i);
      var step := MonthlyRow(monthlySales, transactions[i], start, end);
      if step.Err? {
        FoldAbort(es, i);
        return Report.Raised(step.error);
      }
      monthlySales := step.value;
      i := i + 1;
    }
    assert es[..i] == es;
    if |monthlySales| == 0 {
      return NoChart(NoSalesInRange);
    }
    r := Chart(monthlySales);
  }

  /** A row on which display_monthly_sales raises instead of skipping or counting. */
  predicate MonthlyRowRaises(t: Row, start: Date, end: Date)
  {
    || !t.date.Text?
    || (InRange(t, start, end)
        && (t.payment.NoneValue? || (FloatFieldOrZero(t.payment).Ok? && t.quantity.NoneValue?)))
  }

  /** The rows on which display_monthly_sales raises. */
  lemma MonthlyEffectRaises(t: Row, start: Date, end: Date)
    ensures MonthlyEffect(t, start, end).Fail? <==> MonthlyRowRaises(t, start, end)
  {
  }

  /** A row that does not raise opens exactly the month of its date when it lies in the range. */
  lemma MonthlyEffectTouches(t: Row, start: Date, end: Date, k: string)
    requires !MonthlyEffect(t, start, end).Fail?
    ensures Touches(MonthlyEffect(t, start, end), k) <==> InShortMonth(t, start, end, k)
  {
  }

  /** The month dict fold raises exactly when some row raises. */
  lemma MonthlyFoldRaises(rows: seq<Row>, start: Date, end: Date)
    ensures Fold(MonthlyEffects(rows, start, end)).Err? <==>
      exists i :: 0 <= i < |rows| && MonthlyRowRaises(rows[i], start, end)
  {
    var es := MonthlyEffects(rows, start, end);
    FoldFails(es);
    forall i | 0 <= i < |rows| ensures es[i].Fail? <==> MonthlyRowRaises(rows[i], start, end) {
      MonthlyEffectRaises(rows[i], start, end);
    }
  }

  /** Without an exception, the dict's keys are exactly the months of the rows in range. */
  lemma MonthlyFoldKeys(rows: seq<Row>, start: Date, end: Date)
    requires Fold(MonthlyEffects(rows, start, end)).Ok?
    ensures forall k :: k in Fold(MonthlyEffects(rows, start, end)).value <==>
      exists i :: 0 <= i < |rows| && InShortMonth(rows[i], start, end, k)
  {
    var es := MonthlyEffects(rows, start, end);
    FoldFails(es);
    FoldSums(es);
    forall i, k | 0 <= i < |rows| ensures Touches(es[i], k) <==> InShortMonth(rows[i], start, end, k) {
      assert !es[i].Fail?;
      MonthlyEffectTouches(rows[i], start, end, k);
    }
  }

  /** Without an exception, the dict is empty exactly when no row lies in the range. */
  lemma MonthlyFoldEmpty(rows: seq<Row>, start: Date, end: Date)
    requires Fold(MonthlyEffects(rows, start, end)).Ok?
    ensures |Fold(MonthlyEffects(rows, start, end)).value| == 0 <==>
      forall i :: 0 <= i < |rows| ==> !InRange(rows[i], start, end)
  {
    var m := Fold(MonthlyEffects(rows, start, end)).value;
    MonthlyFoldKeys(rows, start, end);
    if exists i :: 0 <= i < |rows| && InRange(rows[i], start, end) {
      var i :| 0 <= i < |rows| && InRange(rows[i], start, end);
      var k := ShortMonthKey(ParseDayMonthYear(rows[i].date.s).value);
      assert InShortMonth(rows[i], start, end, k);
      assert k in m;
    } else {
      forall k ensures k !in m {
        assert forall i :: 0 <= i < |rows| ==> !InShortMonth(rows[i], start, end, k);
      }
      assert m == map[];
    }
  }

  /**
   * The meaning of display_monthly_sales for well-formed months: it raises
   * exactly when some row raises; otherwise the chart has a bucket for
   * exactly the "%y-%m" keys of the rows dated from the 1st of the start
   * month to the 1st of the end month, each holding the sum of the payments,
   * the sum of the quantities and the number of rows counted there, and no
   * chart is drawn exactly when no row raises and none lies in the range.
   */
  lemma MonthlySalesMeaning(transactions: seq<Row>, startMonth: string, endMonth: string, start: Date, end: Date)
    requires ParseMonthYear(startMonth) == Some(start) && ParseMonthYear(endMonth) == Some(end)
    requires |transactions| > 0
    ensures var r := MonthlySales(transactions, startMonth, endMonth);
      var es := MonthlyEffects(transactions, start, end);
      && (r.Raised? <==> exists i :: 0 <= i < |transactions| && MonthlyRowRaises(transactions[i], start, end))
      && (r.Chart? ==> forall k :: k in r.data <==>
            exists i :: 0 <= i < |transactions| && InShortMonth(transactions[i], start, end, k))
      && (r.Chart? ==> forall k :: k in r.data ==>
            r.data[k] == Bucket(ValueSum(es, k), StockSum(es, k), CountSum(es, k)))
      && (r == NoChart(NoSalesInRange) <==>
            forall i :: 0 <= i < |transactions| ==>
              !MonthlyRowRaises(transactions[i], start, end) && !InRange(transactions[i], start, end))
  {
    var es := MonthlyEffects(transactions, start, end);
    MonthlyFoldRaises(transactions, start, end);
    if Fold(es).Ok? {
      FoldSums(es);
      MonthlyFoldKeys(transactions, start, end);
      MonthlyFoldEmpty(transactions, start, end);
    }
  }

  /** The range ends on the 1st of the end month: later days of that month are not counted. */
  lemma MonthlyRangeEndsOnFirstDay(t: Row, start: Date, endMonth: string, end: Date, d: Date)
    requires ParseMonthYear(endMonth) == Some(end)
    requires t.date.Text? && ParseDayMonthYear(t.date.s) == Some(d)
    requires d.year == end.year && d.month == end.month && d.day > 1
    ensures MonthlyEffect(t, start, end) == Skip
  {
  }

  /** A row that fails to convert adds nothing: an unparseable date skips it, a bad amount leaves only its bucket. */
  lemma MonthlyConversionFailure(t: Row, start: Date, end: Date, d: Date)
    ensures t.date.Text? && ParseDayMonthYear(t.date.s).None? ==> MonthlyEffect(t, start, end) == Skip
    ensures DatedIn(t, start, end, d)
            && (FloatFieldOrZero(t.payment) == Err(ValueError)
                || (FloatFieldOrZero(t.payment).Ok? && IntFieldOrZero(t.quantity) == Err(ValueError)))
            ==> MonthlyEffect(t, start, end) == Open(ShortMonthKey(d))
  {
  }

  // ---------------------------------------------------------------------------
  // display_product_sales

  /**
   * One row of display_product_sales. KeyError, TypeError and ValueError are
   * all caught, so no row raises. A row counts when its date parses, its id
   * equals the product's and its date is in range; it opens its "%Y-%m"
   * bucket, the payment is added as soon as it converts, and the quantity
   * and the count only if the quantity converts too.
   */
  function ProductEffect(t: Row, groceryId: string, start: Date, end: Date): Effect
  {
    match t.date
    case Absent => Skip
    case NoneValue => Skip
    case Text(text) =>
      match ParseDayMonthYear(text)
      case None => Skip
      case Some(d) =>
        if !(t.id.Text? && t.id.s == groceryId && Between(start, d, end)) then Skip
        else
          ProductCount(LongMonthKey(d), t)
  }

  /**
   * A matching row opens its month's bucket, then adds its payment and,
   * if the quantity converts too, its quantity and one sale; a failed
   * conversion is caught and stops the row there.
   */
  function ProductCount(k: string, t: Row): Effect
  {
    match FloatField(t.payment)
    case Err(_) => Open(k)
    case Ok(p) =>
      match IntField(t.quantity)
      case Err(_) => AddValue(k, p)
      case Ok(q) => Add(k, p, q)
  }

  function ProductEffects(rows: seq<Row>, groceryId: string, start: Date, end: Date): (es: seq<Effect>)
    ensures |es| == |rows|
    ensures forall i :: 0 <= i < |rows| ==> es[i] == ProductEffect(rows[i], groceryId, start, end)
  {
    seq(|rows|, i requires 0 <= i < |rows| => ProductEffect(rows[i], groceryId, start, end))
  }

  /** What display_product_sales passes to the chart, or why it does not. */
  function ProductSales(transactions: seq<Row>, groceries: map<string, Item>, groceryId: string,
                        startMonth: string, endMonth: string): Report<map<string, Bucket>>
  {
    var start := ParseMonthYear(startMonth);
    var end := ParseMonthYear(endMonth);
    if groceryId !in groceries then NoChart(UnknownProduct)
    else if start.None? || end.None? then NoChart(BadRangeFormat)
    else if !OnOrBefore(start.value, end.value) then NoChart(StartAfterEnd)
    else
      match Fold(ProductEffects(transactions, groceryId, start.value, end.value))
      case Err(x) => Report.Raised(x)
      case Ok(m) => if |m| == 0 then NoChart(NoSalesInRange) else Chart(m)
  }

  /** The try block of display_product_sales's loop for a row that matches, filing it under month. */
  method ProductCountRow(monthlySales: map<string, Bucket>, month: string, t: Row) returns (m: map<string, Bucket>)
    ensures m == Apply(monthlySales, ProductCount(month, t))
  {
    m := monthlySales;
    if month !in m {
      m := m[month := Bucket(0, 0, 0)];
    }
    assert m == monthlySales[month := BucketOf(monthlySales, month)];
    var payment := FloatField(t.payment);
    if payment.Err? {
      return;
    }
    var b := m[month];
    m := m[month := b.(value := b.value + payment.value)];
    var quantity := IntField(t.quantity);
    if quantity.Err? {
      return;
    }
    b := m[month];
    m := m[month := Bucket(b.value, b.stock + quantity.value, b.count + 1)];
  }

  /** The body of display_product_sales's loop: the effect of one row on the month dict. */
  method ProductRow(monthlySales: map<string, Bucket>, t: Row, groceryId: string, start: Date, end: Date)
    returns (m: map<string, Bucket>)
    ensures m == Apply(monthlySales, ProductEffect(t, groceryId, start, end))
  {
    ghost var e := ProductEffect(t, groceryId, start, end);
    m := monthlySales;
    if t.date.Text? {
      var transactionDate := ParseDayMonthYear(t.date.s);
      if transactionDate.Some? && t.id.Text? && t.id.s == groceryId && Between(start, transactionDate.value, end) {
        var month := LongMonthKey(transactionDate.value);
        m := ProductCountRow(monthlySales, month, t);
        return;
      }
    }
    assert e == Skip;
  }

  /** display_product_sales, up to the plot_graph call. */
  method DisplayProductSales(transactions: seq<Row>, groceries: map<string, Item>, groceryId: string,
                             startMonth: string, endMonth: string)
    returns (r: Report<map<string, Bucket>>)
    ensures r == ProductSales(transactions, groceries, groceryId, startMonth, endMonth)
  {
    if groceryId !in groceries {
      return NoChart(UnknownProduct);
    }
    var startDate := ParseMonthYear(startMonth);
    var endDate := ParseMonthYear(endMonth);
    if startDate.None? || endDate.None? {
      return NoChart(BadRangeFormat);
    }
    var start, end := startDate.value, endDate.value;
    if !OnOrBefore(start, end) {
      return NoChart(StartAfterEnd);
    }
    ghost var es := ProductEffects(transactions, groceryId, start, end);
    var monthlySales: map<string, Bucket> := map[];
    var i := 0;
    while i < |transactions|
      invariant 0 <= i <= |transactions|
      invariant Fold(es[..i]) == Ok(monthlySales)
    {
      FoldStep(es, i);
      monthlySales := ProductRow(monthlySales, transactions[i], groceryId, start, end);
      i := i + 1;
    }
    assert es[..i] == es;
    if |monthlySales| == 0 {
      return NoChart(NoSalesInRange);
    }
    r := Chart(monthlySales);
  }

  /** t is the product's row, dated in [start, end] within the month whose "%Y-%m" key is k. */
  predicate InProductMonth(t: Row, groceryId: string, start: Date, end: Date, k: string)
  {
    t.id == Text(groceryId) && t.date.Text? && ParseDayMonthYear(t.date.s).Some?
    && DatedIn(t, start, end, ParseDayMonthYear(t.date.s).value)
    && LongMonthKey(ParseDayMonthYear(t.date.s).value) == k
  }

  lemma ProductEffectCases(t: Row, groceryId: string, start: Date, end: Date, k: string)
    ensures !ProductEffect(t, groceryId, start, end).Fail?
    ensures Touches(ProductEffect(t, groceryId, start, end), k) <==> InProductMonth(t, groceryId, start, end, k)
  {
  }

  /**
   * The meaning of display_product_sales for a known product and an ordered
   * pair of well-formed months: it never raises; the chart has a bucket for
   * exactly the "%Y-%m" months of that product's rows in the range, each
   * holding the summed payments, quantities and count; and it reports that
   * no sales were found exactly when no row of that product is in the range.
   */
  lemma ProductSalesMeaning(transactions: seq<Row>, groceries: map<string, Item>, groceryId: string,
                            startMonth: string, endMonth: string, start: Date, end: Date)
    requires groceryId in groceries
    requires ParseMonthYear(startMonth) == Some(start) && ParseMonthYear(endMonth) == Some(end)
    requires OnOrBefore(start, end)
    ensures var r := ProductSales(transactions, groceries, groceryId, startMonth, endMonth);
      var es := ProductEffects(transactions, groceryId, start, end);
      && !r.Raised?
      && (r.Chart? ==> forall k :: k in r.data <==>
            exists i :: 0 <= i < |transactions| && InProductMonth(transactions[i], groceryId, start, end, k))
      && (r.Chart? ==> forall k :: k in r.data ==>
            r.data[k] == Bucket(ValueSum(es, k), StockSum(es, k), CountSum(es, k)))
      && (r == NoChart(NoSalesInRange) <==>
            forall i, k :: 0 <= i < |transactions| ==> !InProductMonth(transactions[i], groceryId, start, end, k))
  {
    var es := ProductEffects(transactions, groceryId, start, end);
    ProductFoldKeys(transactions, groceryId, start, end);
    FoldSums(es);
    ProductFoldEmpty(transactions, groceryId, start, end);
    var m := Fold(es).value;
    var r := ProductSales(transactions, groceries, groceryId, startMonth, endMonth);
    if |m| == 0 {
      assert r == NoChart(NoSalesInRange);
    } else {
      assert r == Chart(m);
    }
  }

  /** The product loop never raises, and its dict has a bucket for exactly the months of the product's rows in range. */
  lemma ProductFoldKeys(rows: seq<Row>, groceryId: string, start: Date, end: Date)
    ensures var es := ProductEffects(rows, groceryId, start, end);
      && Fold(es).Ok?
      && forall k :: k in Fold(es).value <==>
           exists i :: 0 <= i < |rows| && InProductMonth(rows[i], groceryId, start, end, k)
  {
    var es := ProductEffects(rows, groceryId, start, end);
    forall i, k | 0 <= i < |rows|
      ensures es[i] == ProductEffect(rows[i], groceryId, start, end) && !es[i].Fail?
      ensures Touches(es[i], k) <==> InProductMonth(rows[i], groceryId, start, end, k)
    {
      ProductEffectCases(rows[i], groceryId, start, end, k);
    }
    FoldFails(es);
    FoldSums(es);
  }

  /** The product loop's dict is empty exactly when no row of the product lies in the range. */
  lemma ProductFoldEmpty(rows: seq<Row>, groceryId: string, start: Date, end: Date)
    ensures var es := ProductEffects(rows, groceryId, start, end);
      Fold(es).Ok? &&
      (|Fold(es).value| == 0 <==> forall i, k :: 0 <= i < |rows| ==> !InProductMonth(rows[i], groceryId, start, end, k))
  {
    ProductFoldKeys(rows, groceryId, start, end);
    var m := Fold(ProductEffects(rows, groceryId, start, end)).value;
    if |m| == 0 {
      forall i, k | 0 <= i < |rows| ensures !InProductMonth(rows[i], groceryId, start, end, k) {
        assert k !in m;
      }
    } else {
      var k :| k in m;
      var i :| 0 <= i < |rows| && InProductMonth(rows[i], groceryId, start, end, k);
    }
  }

  /** A product row whose payment converts but whose quantity does not adds its payment and nothing else. */
  lemma ProductQuantityFailure(t: Row, groceryId: string, start: Date, end: Date)
    requires InRange(t, start, end) && t.id == Text(groceryId)
    requires FloatField(t.payment).Ok? && IntField(t.quantity).Err?
    ensures ProductEffect(t, groceryId, start, end) ==
      AddValue(LongMonthKey(ParseDayMonthYear(t.date.s).value), FloatField(t.payment).value)
  {
  }

  // ---------------------------------------------------------------------------
  // display_total_sales

  /**
   * One row of display_total_sales. A row lacking date, id or payment is
   * skipped; a None date raises TypeError (only ValueError is caught); an
   * unparseable or out-of-range date, an id not in the catalog or a payment
   * that is not a plain decimal skips the row.
   */
  function TotalContribution(t: Row, groceries: map<string, Item>, start: Date, end: Date): Contribution<string>
  {
    if t.date.Absent? || t.id.Absent? || t.payment.Absent? then Drop
    else if t.date.NoneValue? then Abort(TypeError)
    else
      match ParseDayMonthYear(t.date.s)
      case None => Drop
      case Some(d) =>
        if !Between(start, d, end) then Drop
        else if !(t.id.Text? && t.id.s in groceries) then Drop
        else if !(t.payment.Text? && IsPlainDecimal(t.payment.s) && ParseCents(t.payment.s).Some?) then Drop
        else Accept(t.id.s, ParseCents(t.payment.s).value)
  }

  function TotalContributions(rows: seq<Row>, groceries: map<string, Item>, start: Date, end: Date)
    : (cs: seq<Contribution<string>>)
    ensures |cs| == |rows|
    ensures forall i :: 0 <= i < |rows| ==> cs[i] == TotalContribution(rows[i], groceries, start, end)
  {
    seq(|rows|, i requires 0 <= i < |rows| => TotalContribution(rows[i], groceries, start, end))
  }

  /** Only products of the catalog are ever accepted. */
  lemma {:induction false} AcceptedAreInCatalog(rows: seq<Row>, groceries: map<string, Item>, start: Date, end: Date)
    ensures forall k :: k in AcceptedIds(TotalContributions(rows, groceries, start, end)) ==> k in groceries
    decreases |rows|
  {
    if |rows| > 0 {
      var init := rows[..|rows| - 1];
      AcceptedAreInCatalog(init, groceries, start, end);
      assert TotalContributions(rows, groceries, start, end)[..|rows| - 1] == TotalContributions(init, groceries, start, end);
    }
  }

  /** The chart data: the (id, total) pairs sorted largest first, and the catalog names in that order. */
  function RankedWithNames(t: Tally<string>, groceries: map<string, Item>): (r: (seq<(string, int)>, seq<string>))
    requires forall k :: k in t.order ==> k in t.totals && k in groceries
  {
    var sorted := SortByTotalDescending(Items(t));
    assert forall j :: 0 <= j < |sorted| ==> sorted[j].0 in groceries by {
      forall j | 0 <= j < |sorted| ensures sorted[j].0 in groceries {
        assert sorted[j] in multiset(Items(t));
        var x :| 0 <= x < |Items(t)| && Items(t)[x] == sorted[j];
      }
    }
    (sorted, seq(|sorted|, j requires 0 <= j < |sorted| => groceries[sorted[j].0].name))
  }

  /** What display_total_sales passes to the chart, or why it does not. */
  function TotalSales(transactions: seq<Row>, groceries: map<string, Item>, startDate: string, endDate: string)
    : Report<(seq<(string, int)>, seq<string>)>
  {
    var start := ParseDayMonthYear(startDate);
    var end := ParseDayMonthYear(endDate);
    if start.None? || end.None? then NoChart(BadRangeFormat)
    else
      var cs := TotalContributions(transactions, groceries, start.value, end.value);
      match TallyFold(cs)
      case Err(x) => Report.Raised(x)
      case Ok(t) =>
        if |t.order| == 0 then NoChart(NoSalesInRange)
        else
          TallySums(cs);
          AcceptedAreInCatalog(transactions, groceries, start.value, end.value);
          Chart(RankedWithNames(t, groceries))
  }

  /** The body of display_total_sales's loop: one row's addition to the totals, or its exception. */
  method TotalRow(grocerySales: Tally<string>, t: Row, groceries: map<string, Item>, start: Date, end: Date)
    returns (r: Result<Tally<string>, PyError>)
    ensures r == match TotalContribution(t, groceries, start, end)
                 case Drop => Ok(grocerySales)
                 case Accept(k, a) => Ok(TallyAdd(grocerySales, k, a))
                 case Abort(x) => Err(x)
  {
    r := Ok(grocerySales);
    if t.date.Absent? || t.id.Absent? || t.payment.Absent? {
      return;
    }
    if t.date.NoneValue? {
      return Err(TypeError);
    }
    var transactionDate := ParseDayMonthYear(t.date.s);
    if transactionDate.Some? && Between(start, transactionDate.value, end) {
      if !(t.id.Text? && t.id.s in groceries) {
        return;
      }
      var groceryId := t.id.s;
      var payment := t.payment;
      if payment.Text? && IsPlainDecimal(payment.s) && ParseCents(payment.s).Some? {
        var amount := ParseCents(payment.s).value;
        if groceryId in grocerySales.totals {
          r := Ok(Tally(grocerySales.totals[groceryId := grocerySales.totals[groceryId] + amount], grocerySales.order));
        } else {
          r := Ok(Tally(grocerySales.totals[groceryId := amount], grocerySales.order + [groceryId]));
        }
      }
    }
  }

  /** display_total_sales, up to the plot_bar_chart call. */
  method DisplayTotalSales(transactions: seq<Row>, groceries: map<string, Item>, startDate: string, endDate: string)
    returns (r: Report<(seq<(string, int)>, seq<string>)>)
    ensures r == TotalSales(transactions, groceries, startDate, endDate)
  {
    var start := ParseDayMonthYear(startDate);
    var end := ParseDayMonthYear(endDate);
    if start.None? || end.None? {
      return NoChart(BadRangeFormat);
    }
    ghost var cs := TotalContributions(transactions, groceries, start.value, end.value);
    var grocerySales: Tally<string> := Tally(map[], []);
    var i := 0;
    while i < |transactions|
      invariant 0 <= i <= |transactions|
      invariant TallyFold(cs[..i]) == Ok(grocerySales)
    {
      TallyStep(cs, i);
      var step := TotalRow(grocerySales, transactions[i], groceries, start.value, end.value);
      if step.Err? {
        TallyAbort(cs, i);
        return Report.Raised(step.error);
      }
      grocerySales := step.value;
      i := i + 1;
    }
    assert cs[..i] == cs;
    if |grocerySales.order| == 0 {
      return NoChart(NoSalesInRange);
    }
    TallySums(cs);
    AcceptedAreInCatalog(transactions, groceries, start.value, end.value);
    r := Chart(RankedWithNames(grocerySales, groceries));
  }

  /** A row on which display_total_sales raises: it has all three fields, but its date is None. */
  predicate TotalRowRaises(t: Row)
  {
    t.date.NoneValue? && !t.id.Absent? && !t.payment.Absent?
  }

  /** A row display_total_sales adds to a product's total. */
  predicate TotalRowCounts(t: Row, groceries: map<string, Item>, start: Date, end: Date)
  {
    && InRange(t, start, end)
    && t.id.Text? && t.id.s in groceries
    && t.payment.Text? && IsPlainDecimal(t.payment.s) && ParseCents(t.payment.s).Some?
  }

  lemma TotalContributionCases(t: Row, groceries: map<string, Item>, start: Date, end: Date)
    ensures TotalContribution(t, groceries, start, end).Abort? <==> TotalRowRaises(t)
    ensures TotalContribution(t, groceries, start, end).Abort? ==> TotalContribution(t, groceries, start, end).error == TypeError
    ensures TotalContribution(t, groceries, start, end).Accept? <==> TotalRowCounts(t, groceries, start, end)
    ensures TotalContribution(t, groceries, start, end).Accept? ==>
      TotalContribution(t, groceries, start, end) == Accept(t.id.s, ParseCents(t.payment.s).value)
  {
  }

  /** The products display_total_sales adds to are those of the rows it counts. */
  lemma TotalAcceptedIds(rows: seq<Row>, groceries: map<string, Item>, start: Date, end: Date, k: string)
    ensures k in AcceptedIds(TotalContributions(rows, groceries, start, end)) <==>
      exists i :: 0 <= i < |rows| && TotalRowCounts(rows[i], groceries, start, end) && rows[i].id.s == k
  {
    var cs := TotalContributions(rows, groceries, start, end);
    AcceptedIdsMembership(cs, k);
    forall i | 0 <= i < |rows|
      ensures cs[i].Accept? && cs[i].id == k <==> TotalRowCounts(rows[i], groceries, start, end) && rows[i].id.s == k
    {
      TotalContributionCases(rows[i], groceries, start, end);
    }
  }

  /** The totals fold raises exactly when some complete row has a None date, and then TypeError. */
  lemma TotalFoldRaises(rows: seq<Row>, groceries: map<string, Item>, start: Date, end: Date)
    ensures var f := TallyFold(TotalContributions(rows, groceries, start, end));
      && (f.Err? <==> exists i :: 0 <= i < |rows| && TotalRowRaises(rows[i]))
      && (f.Err? ==> f.error == TypeError)
  {
    var cs := TotalContributions(rows, groceries, start, end);
    TallyFails(cs);
    forall i | 0 <= i < |rows|
      ensures cs[i].Abort? <==> TotalRowRaises(rows[i])
      ensures cs[i].Abort? ==> cs[i].error == TypeError
    {
      TotalContributionCases(rows[i], groceries, start, end);
    }
  }

  /** Without an exception, the totals are empty exactly when no row counts. */
  lemma TotalFoldEmpty(rows: seq<Row>, groceries: map<string, Item>, start: Date, end: Date)
    requires TallyFold(TotalContributions(rows, groceries, start, end)).Ok?
    ensures |TallyFold(TotalContributions(rows, groceries, start, end)).value.order| == 0 <==>
      forall i :: 0 <= i < |rows| ==> !TotalRowCounts(rows[i], groceries, start, end)
  {
    var cs := TotalContributions(rows, groceries, start, end);
    TallySums(cs);
    NoneAccepted(cs);
    forall i | 0 <= i < |rows| ensures cs[i].Accept? <==> TotalRowCounts(rows[i], groceries, start, end) {
      TotalContributionCases(rows[i], groceries, start, end);
    }
  }

  /**
   * Without an exception, the chart lists each counted product once, with
   * the sum of its counted payments, largest total first, and beside each
   * the product's catalog name.
   */
  lemma TotalFoldRanked(rows: seq<Row>, groceries: map<string, Item>, start: Date, end: Date)
    requires TallyFold(TotalContributions(rows, groceries, start, end)).Ok?
    ensures var cs := TotalContributions(rows, groceries, start, end);
      var t := TallyFold(cs).value;
      (forall k :: k in t.order ==> k in t.totals && k in groceries) &&
      var d := RankedWithNames(t, groceries);
      && NonIncreasing(d.0)
      && DistinctKeys(d.0)
      && |d.1| == |d.0|
      && (forall j :: 0 <= j < |d.0| ==> d.0[j].0 in groceries && d.1[j] == groceries[d.0[j].0].name)
      && (forall k, v :: (k, v) in d.0 <==>
            (exists i :: 0 <= i < |rows| && TotalRowCounts(rows[i], groceries, start, end) && rows[i].id.s == k)
            && v == AmountSum(cs, k))
  {
    var cs := TotalContributions(rows, groceries, start, end);
    var t := TallyFold(cs).value;
    TallySums(cs);
    RankedTotals(cs);
    AcceptedAreInCatalog(rows, groceries, start, end);
    forall k ensures k in AcceptedIds(cs) <==>
      exists i :: 0 <= i < |rows| && TotalRowCounts(rows[i], groceries, start, end) && rows[i].id.s == k
    {
      TotalAcceptedIds(rows, groceries, start, end, k);
    }
    var sorted := SortByTotalDescending(Items(t));
    forall j | 0 <= j < |sorted| ensures sorted[j].0 in groceries {
      assert (sorted[j].0, sorted[j].1) in sorted;
    }
    var d := RankedWithNames(t, groceries);
    assert d.0 == sorted && |d.1| == |sorted|;
  }

  /** For well-formed dates, display_total_sales raises TypeError exactly when some complete row has a None date. */
  lemma TotalSalesRaises(transactions: seq<Row>, groceries: map<string, Item>, startDate: string, endDate: string,
                         start: Date, end: Date)
    requires ParseDayMonthYear(startDate) == Some(start) && ParseDayMonthYear(endDate) == Some(end)
    ensures var r := TotalSales(transactions, groceries, startDate, endDate);
      && (r.Raised? <==> exists i :: 0 <= i < |transactions| && TotalRowRaises(transactions[i]))
      && (r.Raised? ==> r.error == TypeError)
  {
    TotalFoldRaises(transactions, groceries, start, end);
  }

  /** For well-formed dates, display_total_sales draws no chart exactly when no row raises and none counts. */
  lemma TotalSalesNoChart(transactions: seq<Row>, groceries: map<string, Item>, startDate: string, endDate: string,
                          start: Date, end: Date)
    requires ParseDayMonthYear(startDate) == Some(start) && ParseDayMonthYear(endDate) == Some(end)
    ensures TotalSales(transactions, groceries, startDate, endDate) == NoChart(NoSalesInRange) <==>
      (forall i :: 0 <= i < |transactions| ==> !TotalRowRaises(transactions[i])) &&
      (forall i :: 0 <= i < |transactions| ==> !TotalRowCounts(transactions[i], groceries, start, end))
  {
    TotalFoldRaises(transactions, groceries, start, end);
    if TallyFold(TotalContributions(transactions, groceries, start, end)).Ok? {
      TotalFoldEmpty(transactions, groceries, start, end);
    }
  }

  /**
   * For well-formed dates, a chart of display_total_sales lists each
   * counted product once, with the sum of its counted payments, largest
   * total first, and beside each the product's catalog name.
   */
  lemma TotalSalesChart(transactions: seq<Row>, groceries: map<string, Item>, startDate: string, endDate: string,
                        start: Date, end: Date)
    requires ParseDayMonthYear(startDate) == Some(start) && ParseDayMonthYear(endDate) == Some(end)
    ensures var r := TotalSales(transactions, groceries, startDate, endDate);
      var cs := TotalContributions(transactions, groceries, start, end);
      r.Chart? ==>
        && NonIncreasing(r.data.0)
        && DistinctKeys(r.data.0)
        && |r.data.1| == |r.data.0|
        && (forall j :: 0 <= j < |r.data.0| ==> r.data.0[j].0 in groceries && r.data.1[j] == groceries[r.data.0[j].0].name)
        && (forall k, v :: (k, v) in r.data.0 <==>
              (exists i :: 0 <= i < |transactions| && TotalRowCounts(transactions[i], groceries, start, end)
                           && transactions[i].id.s == k)
              && v == AmountSum(cs, k))
  {
    if TallyFold(TotalContributions(transactions, groceries, start, end)).Ok? {
      TotalFoldRanked(transactions, groceries, start, end);
    }
  }
}
