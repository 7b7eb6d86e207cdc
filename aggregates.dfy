/**
 * What the reports hand to the chart, and the shared machinery behind the
 * month reports: each row has an Effect on the dict of month buckets, and
 * the report's loop applies the effects in order. The lemmas say what the
 * resulting dict holds: a bucket for exactly the months some row touched,
 * each holding the sums of what the rows added, or the first exception.
 */
module Aggregates {
  import opened Wrappers
  import opened Records

  /** Why a report draws no chart. */
  datatype Reason = BadRangeFormat | NoTransactions | NoSalesInRange | UnknownProduct | StartAfterEnd

  /** A report ends with the data passed to the chart, with no chart, or with an escaping exception. */
  datatype Report<T> = Chart(data: T) | NoChart(reason: Reason) | Raised(error: PyError)

  /** A month's entry {'value', 'stock', 'count'}. */
  datatype Bucket = Bucket(value: int, stock: int, count: int)

  /**
   * What one row does to the month dict: nothing; create its month's bucket
   * and add nothing (a later conversion failed); create it and add only
   * the payment; create it and add payment, quantity and one to the count;
   * or raise an exception that ends the report.
   */
  datatype Effect =
    | Skip
    | Open(key: string)
    | AddValue(key: string, value: int)
    | Add(key: string, value: int, stock: int)
    | Fail(error: PyError)

  predicate Touches(e: Effect, k: string)
  {
    (e.Open? || e.AddValue? || e.Add?) && e.key == k
  }

  /** The bucket of k, or the zero bucket a first touch creates. */
  function BucketOf(m: map<string, Bucket>, k: string): Bucket
  {
    if k in m then m[k] else Bucket(0, 0, 0)
  }

  function Apply(m: map<string, Bucket>, e: Effect): map<string, Bucket>
    requires !e.Fail?
  {
    match e
    case Skip => m
    case Open(k) => m[k := BucketOf(m, k)]
    case AddValue(k, v) => m[k := BucketOf(m, k).(value := BucketOf(m, k).value + v)]
    case Add(k, v, q) =>
      var b := BucketOf(m, k);
      m[k := Bucket(b.value + v, b.stock + q, b.count + 1)]
  }

  /** The dict after applying the effects in order, starting from {}; the first Fail ends it. */
  function Fold(es: seq<Effect>): Result<map<string, Bucket>, PyError>
    decreases |es|
  {
    if |es| == 0 then Ok(map[])
    else
      match Fold(es[..|es| - 1])
      case Err(x) => Err(x)
      case Ok(m) =>
        var e := es[|es| - 1];
        if e.Fail? then Err(e.error) else Ok(Apply(m, e))
  }

  function ValueOf(e: Effect, k: string): int
  {
    if (e.AddValue? || e.Add?) && e.key == k then e.value else 0
  }

  function StockOf(e: Effect, k: string): int
  {
    if e.Add? && e.key == k then e.stock else 0
  }

  function CountOf(e: Effect, k: string): nat
  {
    if e.Add? && e.key == k then 1 else 0
  }

  /** The payments the effects add to month k. */
  function ValueSum(es: seq<Effect>, k: string): int
    decreases |es|
  {
    if |es| == 0 then 0 else ValueSum(es[..|es| - 1], k) + ValueOf(es[|es| - 1], k)
  }

  /** The quantities the effects add to month k. */
  function StockSum(es: seq<Effect>, k: string): int
    decreases |es|
  {
    if |es| == 0 then 0 else StockSum(es[..|es| - 1], k) + StockOf(es[|es| - 1], k)
  }

  /** The number of rows counted in month k. */
  function CountSum(es: seq<Effect>, k: string): nat
    decreases |es|
  {
    if |es| == 0 then 0 else CountSum(es[..|es| - 1], k) + CountOf(es[|es| - 1], k)
  }

  /** One more step of the loop. */
  lemma FoldStep(es: seq<Effect>, i: nat)
    requires i < |es|
    ensures Fold(es[..i + 1]) ==
      match Fold(es[..i])
      case Err(x) => Err(x)
      case Ok(m) => if es[i].Fail? then Err(es[i].error) else Ok(Apply(m, es[i]))
  {
    assert es[..i + 1][..i] == es[..i];
  }

  /** An exception at row i, after rows that raised none, is what the whole report raises. */
  lemma {:induction false} FoldAbort(es: seq<Effect>, i: nat)
    requires i < |es| && Fold(es[..i]).Ok? && es[i].Fail?
    ensures Fold(es) == Err(es[i].error)
    decreases |es|
  {
    if |es| == i + 1 {
      FoldStep(es, i);
      assert es[..i + 1] == es;
    } else {
      var init := es[..|es| - 1];
      assert init[..i] == es[..i] && init[i] == es[i];
      FoldAbort(init, i);
    }
  }

  /** The report raises exactly when some row raises, and then it is the first such row's exception. */
  lemma {:induction false} FoldFails(es: seq<Effect>)
    ensures Fold(es).Err? <==> exists i :: 0 <= i < |es| && es[i].Fail?
    ensures Fold(es).Err? ==>
      exists i :: 0 <= i < |es| && es[i].Fail? && Fold(es).error == es[i].error
                  && forall j :: 0 <= j < i ==> !es[j].Fail?
    decreases |es|
  {
    if |es| > 0 {
      var init := es[..|es| - 1];
      FoldFails(init);
      assert forall j :: 0 <= j < |init| ==> init[j] == es[j];
      if Fold(init).Err? {
        var i :| 0 <= i < |init| && init[i].Fail? && Fold(init).error == init[i].error
                 && forall j :: 0 <= j < i ==> !init[j].Fail?;
        assert es[i].Fail? && forall j :: 0 <= j < i ==> !es[j].Fail?;
      } else if es[|es| - 1].Fail? {
        assert forall j :: 0 <= j < |es| - 1 ==> !es[j].Fail?;
      } else {
        forall i | 0 <= i < |es| ensures !es[i].Fail? {
          if i < |es| - 1 { assert es[i] == init[i]; }
        }
      }
    }
  }

  /**
   * Without an exception, the dict has a bucket for exactly the months some
   * row touched, and each bucket holds the sum of the payments, the sum of
   * the quantities and the number of rows counted in that month.
   */
  lemma {:induction false} FoldSums(es: seq<Effect>)
    requires Fold(es).Ok?
    ensures forall k :: k in Fold(es).value <==> exists i :: 0 <= i < |es| && Touches(es[i], k)
    ensures forall k :: k in Fold(es).value ==>
      Fold(es).value[k] == Bucket(ValueSum(es, k), StockSum(es, k), CountSum(es, k))
    decreases |es|
  {
    if |es| > 0 {
      var init := es[..|es| - 1];
      var e := es[|es| - 1];
      FoldSums(init);
      assert forall j :: 0 <= j < |init| ==> init[j] == es[j];
      var m := Fold(init).value;
      assert Fold(es).value == Apply(m, e);
      forall k
        ensures k in Fold(es).value <==> exists i :: 0 <= i < |es| && Touches(es[i], k)
      {
        if exists i :: 0 <= i < |es| && Touches(es[i], k) {
          var i :| 0 <= i < |es| && Touches(es[i], k);
          if i < |init| { assert Touches(init[i], k); }
        }
      }
      forall k | k in Fold(es).value
        ensures Fold(es).value[k] == Bucket(ValueSum(es, k), StockSum(es, k), CountSum(es, k))
      {
        if k !in m {
          assert !exists i :: 0 <= i < |init| && Touches(init[i], k);
          UntouchedSumsZero(init, k);
        }
      }
    }
  }

  /** A month no row touched has nothing added to it. */
  lemma {:induction false} UntouchedSumsZero(es: seq<Effect>, k: string)
    requires forall i :: 0 <= i < |es| ==> !Touches(es[i], k)
    ensures ValueSum(es, k) == 0 && StockSum(es, k) == 0 && CountSum(es, k) == 0
    decreases |es|
  {
    if |es| > 0 {
      var init := es[..|es| - 1];
      assert forall j :: 0 <= j < |init| ==> init[j] == es[j];
      UntouchedSumsZero(init, k);
    }
  }
}
