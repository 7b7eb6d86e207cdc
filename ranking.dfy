/**
 * The total-sales report's data: a dict of per-product totals filled in
 * row order (Python dicts keep the order keys were first inserted), then
 * sorted by total, largest first, with sorted(..., reverse=True), which is
 * stable: products with equal totals keep their dict order.
 */
module Ranking {
  import opened Wrappers
  import opened Records

  /** What one row adds to the totals: nothing, an amount for a product, or an escaping exception. */
  datatype Contribution<K(==)> = Drop | Accept(id: K, amount: int) | Abort(error: PyError)

  /** The dict grocery_total_sales: the totals, and its keys in insertion order. */
  datatype Tally<K(==)> = Tally(totals: map<K, int>, order: seq<K>)

  /** grocery_total_sales[k] = grocery_total_sales.get(k, 0) + amount. */
  function TallyAdd<K(==)>(t: Tally<K>, k: K, amount: int): Tally<K>
  {
    if k in t.totals then Tally(t.totals[k := t.totals[k] + amount], t.order)
    else Tally(t.totals[k := amount], t.order + [k])
  }

  /** The dict after the rows' contributions in order, starting from {}; the first Abort ends it. */
  function TallyFold<K(==)>(cs: seq<Contribution<K>>): Result<Tally<K>, PyError>
    decreases |cs|
  {
    if |cs| == 0 then Ok(Tally(map[], []))
    else
      match TallyFold(cs[..|cs| - 1])
      case Err(x) => Err(x)
      case Ok(t) =>
        match cs[|cs| - 1]
        case Drop => Ok(t)
        case Accept(k, a) => Ok(TallyAdd(t, k, a))
        case Abort(x) => Err(x)
  }

  /** The amounts the rows add for product k. */
  function AmountSum<K(==)>(cs: seq<Contribution<K>>, k: K): int
    decreases |cs|
  {
    if |cs| == 0 then 0
    else
      var c := cs[|cs| - 1];
      AmountSum(cs[..|cs| - 1], k) + (if c.Accept? && c.id == k then c.amount else 0)
  }

  /** The products of the accepted rows, in row order, repeats included. */
  function AcceptedIds<K(==)>(cs: seq<Contribution<K>>): seq<K>
    decreases |cs|
  {
    if |cs| == 0 then []
    else
      var c := cs[|cs| - 1];
      AcceptedIds(cs[..|cs| - 1]) + (if c.Accept? then [c.id] else [])
  }

  /** The distinct elements of s in the order of their first occurrence. */
  function FirstSeen<K(==)>(s: seq<K>): seq<K>
    decreases |s|
  {
    if |s| == 0 then []
    else if s[|s| - 1] in s[..|s| - 1] then FirstSeen(s[..|s| - 1])
    else FirstSeen(s[..|s| - 1]) + [s[|s| - 1]]
  }

  predicate Distinct<K(==)>(s: seq<K>)
  {
    forall i, j :: 0 <= i < j < |s| ==> s[i] != s[j]
  }

  /** One more step of the loop. */
  lemma TallyStep<K>(cs: seq<Contribution<K>>, i: nat)
    requires i < |cs|
    ensures TallyFold(cs[..i + 1]) ==
      match TallyFold(cs[..i])
      case Err(x) => Err(x)
      case Ok(t) =>
        match cs[i]
        case Drop => Ok(t)
        case Accept(k, a) => Ok(TallyAdd(t, k, a))
        case Abort(x) => Err(x)
  {
    assert cs[..i + 1][..i] == cs[..i];
  }

  /** An exception at row i, after rows that raised none, is what the whole report raises. */
  lemma {:induction false} TallyAbort<K>(cs: seq<Contribution<K>>, i: nat)
    requires i < |cs| && TallyFold(cs[..i]).Ok? && cs[i].Abort?
    ensures TallyFold(cs) == Err(cs[i].error)
    decreases |cs|
  {
    if |cs| == i + 1 {
      TallyStep(cs, i);
      assert cs[..i + 1] == cs;
    } else {
      var init := cs[..|cs| - 1];
      assert init[..i] == cs[..i] && init[i] == cs[i];
      TallyAbort(init, i);
    }
  }

  /** The report raises exactly when some row raises, and then with the exception of one such row. */
  lemma {:induction false} TallyFails<K>(cs: seq<Contribution<K>>)
    ensures TallyFold(cs).Err? <==> exists i :: 0 <= i < |cs| && cs[i].Abort?
    ensures TallyFold(cs).Err? ==> exists i :: 0 <= i < |cs| && cs[i].Abort? && TallyFold(cs).error == cs[i].error
    decreases |cs|
  {
    if |cs| > 0 {
      var init := cs[..|cs| - 1];
      TallyFails(init);
      assert forall j :: 0 <= j < |init| ==> init[j] == cs[j];
      if TallyFold(init).Ok? && !cs[|cs| - 1].Abort? {
        forall i | 0 <= i < |cs| ensures !cs[i].Abort? {
          if i < |cs| - 1 { assert cs[i] == init[i]; }
        }
      } else if TallyFold(init).Err? {
        var i :| 0 <= i < |init| && init[i].Abort? && TallyFold(init).error == init[i].error;
        assert cs[i] == init[i];
      }
    }
  }

  /** The dict stays empty exactly when no row is accepted. */
  lemma {:induction false} NoneAccepted<K>(cs: seq<Contribution<K>>)
    ensures |FirstSeen(AcceptedIds(cs))| == 0 <==> forall i :: 0 <= i < |cs| ==> !cs[i].Accept?
    decreases |cs|
  {
    if |cs| > 0 {
      var init := cs[..|cs| - 1];
      NoneAccepted(init);
      assert forall j :: 0 <= j < |init| ==> init[j] == cs[j];
      var ids := AcceptedIds(cs);
      if cs[|cs| - 1].Accept? {
        assert ids == AcceptedIds(init) + [cs[|cs| - 1].id];
        assert ids[..|ids| - 1] == AcceptedIds(init);
        if ids[|ids| - 1] in AcceptedIds(init) {
          FirstSeenNonEmpty(AcceptedIds(init));
        }
      } else {
        assert ids == AcceptedIds(init);
      }
    }
  }

  /** The accepted products are the products of the accepted rows. */
  lemma {:induction false} AcceptedIdsMembership<K>(cs: seq<Contribution<K>>, k: K)
    ensures k in AcceptedIds(cs) <==> exists i :: 0 <= i < |cs| && cs[i].Accept? && cs[i].id == k
    decreases |cs|
  {
    if |cs| > 0 {
      var init := cs[..|cs| - 1];
      AcceptedIdsMembership(init, k);
      assert forall j :: 0 <= j < |init| ==> init[j] == cs[j];
      if exists i :: 0 <= i < |cs| && cs[i].Accept? && cs[i].id == k {
        var i :| 0 <= i < |cs| && cs[i].Accept? && cs[i].id == k;
        if i < |init| {
          assert init[i].Accept? && init[i].id == k;
        }
      }
    }
  }

  /** A non-empty sequence has a first occurrence. */
  lemma {:induction false} FirstSeenNonEmpty<K>(s: seq<K>)
    requires |s| > 0
    ensures |FirstSeen(s)| > 0
    decreases |s|
  {
    if s[|s| - 1] in s[..|s| - 1] {
      FirstSeenNonEmpty(s[..|s| - 1]);
    }
  }

  /**
   * Without an exception the dict holds a total for exactly the products of
   * the accepted rows, each total is the sum of that product's accepted
   * amounts, and the keys are those products without repeats, in the order
   * they were first accepted.
   */
  lemma {:induction false} TallySums<K>(cs: seq<Contribution<K>>)
    requires TallyFold(cs).Ok?
    ensures var t := TallyFold(cs).value;
      && t.order == FirstSeen(AcceptedIds(cs))
      && Distinct(t.order)
      && (forall k :: k in t.totals <==> k in t.order)
      && (forall k :: k in t.totals <==> k in AcceptedIds(cs))
      && (forall k :: k in t.totals ==> t.totals[k] == AmountSum(cs, k))
    decreases |cs|
  {
    if |cs| > 0 {
      var init := cs[..|cs| - 1];
      TallySums(init);
      var t0 := TallyFold(init).value;
      var ids0 := AcceptedIds(init);
      match cs[|cs| - 1]
      case Drop =>
        assert AcceptedIds(cs) == ids0;
        forall k | k in t0.totals ensures t0.totals[k] == AmountSum(cs, k) { }
      case Accept(k, a) =>
        assert AcceptedIds(cs) == ids0 + [k];
        assert AcceptedIds(cs)[..|AcceptedIds(cs)| - 1] == ids0;
        var t := TallyAdd(t0, k, a);
        forall x | x in t.totals ensures t.totals[x] == AmountSum(cs, x) {
          if x == k && k !in t0.totals {
            assert k !in ids0;
            AbsentAmountZero(init, k);
          }
        }
        forall x ensures x in t.totals <==> x in AcceptedIds(cs) {
          assert x in ids0 + [k] <==> x in ids0 || x == k;
        }
      case Abort(_) =>
    }
  }

  /** A product no row accepted has a total of zero. */
  lemma {:induction false} AbsentAmountZero<K>(cs: seq<Contribution<K>>, k: K)
    requires k !in AcceptedIds(cs)
    ensures AmountSum(cs, k) == 0
    decreases |cs|
  {
    if |cs| > 0 {
      AbsentAmountZero(cs[..|cs| - 1], k);
    }
  }

  /** dict.items(): the (key, total) pairs in insertion order. */
  function Items<K(==)>(t: Tally<K>): (r: seq<(K, int)>)
    requires forall k :: k in t.order ==> k in t.totals
    ensures |r| == |t.order|
    ensures forall j :: 0 <= j < |r| ==> r[j] == (t.order[j], t.totals[t.order[j]])
  {
    seq(|t.order|, j requires 0 <= j < |t.order| => (t.order[j], t.totals[t.order[j]]))
  }

  /** Largest total first. */
  predicate NonIncreasing<K(==)>(s: seq<(K, int)>)
  {
    forall i, j :: 0 <= i < j < |s| ==> s[i].1 >= s[j].1
  }

  /** The entries whose total is v, in their order in s. */
  function WithTotal<K(==)>(s: seq<(K, int)>, v: int): seq<(K, int)>
    decreases |s|
  {
    if |s| == 0 then [] else (if s[0].1 == v then [s[0]] else []) + WithTotal(s[1..], v)
  }

  /** Place x before the first entry whose total is not larger. */
  function Insert<K(==)>(x: (K, int), s: seq<(K, int)>): (r: seq<(K, int)>)
    ensures multiset(r) == multiset(s) + multiset{x}
    ensures forall y :: y in r ==> y == x || y in s
    decreases |s|
  {
    if |s| == 0 then [x]
    else if s[0].1 <= x.1 then [x] + s
    else
      assert s == [s[0]] + s[1..];
      [s[0]] + Insert(x, s[1..])
  }

  /** No product appears in two entries. */
  predicate DistinctKeys<K(==)>(s: seq<(K, int)>)
  {
    forall i, j :: 0 <= i < j < |s| ==> s[i].0 != s[j].0
  }

  /** Inserting an entry for a new product keeps the products distinct. */
  lemma {:induction false} InsertDistinctKeys<K>(x: (K, int), s: seq<(K, int)>)
    requires DistinctKeys(s) && forall y :: y in s ==> y.0 != x.0
    ensures DistinctKeys(Insert(x, s))
    decreases |s|
  {
    if |s| > 0 && s[0].1 > x.1 {
      InsertDistinctKeys(x, s[1..]);
      var rest := Insert(x, s[1..]);
      forall y | y in rest ensures y.0 != s[0].0 {
        if y != x {
          var j :| 0 <= j < |s[1..]| && s[1..][j] == y;
          assert s[j + 1] == y;
        }
      }
      var r := [s[0]] + rest;
      forall i, j | 0 <= i < j < |r| ensures r[i].0 != r[j].0 {
        if i == 0 { assert r[j] == rest[j - 1] && rest[j - 1] in rest; }
        else { assert r[i] == rest[i - 1] && r[j] == rest[j - 1]; }
      }
    } else if |s| > 0 {
      var r := [x] + s;
      forall i, j | 0 <= i < j < |r| ensures r[i].0 != r[j].0 {
        if i == 0 { assert r[j] == s[j - 1] && s[j - 1] in s; }
        else { assert r[i] == s[i - 1] && r[j] == s[j - 1]; }
      }
    }
  }

  /** Sorting keeps the products distinct. */
  lemma {:induction false} SortDistinctKeys<K>(items: seq<(K, int)>)
    requires DistinctKeys(items)
    ensures DistinctKeys(SortByTotalDescending(items))
    decreases |items|
  {
    if |items| > 0 {
      var tail := items[1..];
      assert DistinctKeys(tail) by {
        forall i, j | 0 <= i < j < |tail| ensures tail[i].0 != tail[j].0 {
          assert tail[i] == items[i + 1] && tail[j] == items[j + 1];
        }
      }
      SortDistinctKeys(tail);
      var rest := SortByTotalDescending(tail);
      forall y | y in rest ensures y.0 != items[0].0 {
        assert y in multiset(rest);
        assert y in multiset(tail);
        var j :| 0 <= j < |tail| && tail[j] == y;
        assert items[j + 1] == y;
      }
      InsertDistinctKeys(items[0], rest);
    }
  }

  /** Inserting into a list sorted largest first keeps it sorted. */
  lemma {:induction false} InsertNonIncreasing<K>(x: (K, int), s: seq<(K, int)>)
    requires NonIncreasing(s)
    ensures NonIncreasing(Insert(x, s))
    decreases |s|
  {
    if |s| > 0 && s[0].1 > x.1 {
      InsertNonIncreasing(x, s[1..]);
      var rest := Insert(x, s[1..]);
      forall y | y in rest ensures y.1 <= s[0].1 {
        if y != x { assert y in s[1..]; }
      }
    }
  }

  /** x lands ahead of every entry with its total and keeps the others' order. */
  lemma {:induction false} InsertWithTotal<K>(x: (K, int), s: seq<(K, int)>, v: int)
    requires NonIncreasing(s)
    ensures WithTotal(Insert(x, s), v) == (if x.1 == v then [x] + WithTotal(s, v) else WithTotal(s, v))
    decreases |s|
  {
    if |s| == 0 {
      assert WithTotal([x], v) == (if x.1 == v then [x] else []) + WithTotal([], v);
    } else if s[0].1 <= x.1 {
      assert ([x] + s)[1..] == s;
    } else {
      var rest := Insert(x, s[1..]);
      assert ([s[0]] + rest)[1..] == rest;
      InsertWithTotal(x, s[1..], v);
    }
  }

  /**
   * sorted(items, key=total, reverse=True): largest total first, a
   * rearrangement of the items, and entries with equal totals in their
   * original order.
   */
  function SortByTotalDescending<K(==)>(items: seq<(K, int)>): (r: seq<(K, int)>)
    ensures NonIncreasing(r)
    ensures multiset(r) == multiset(items)
    ensures forall v :: WithTotal(r, v) == WithTotal(items, v)
    decreases |items|
  {
    if |items| == 0 then []
    else
      var rest := SortByTotalDescending(items[1..]);
      assert items == [items[0]] + items[1..];
      InsertNonIncreasing(items[0], rest);
      assert forall v :: WithTotal(Insert(items[0], rest), v) == WithTotal(items, v) by {
        forall v ensures WithTotal(Insert(items[0], rest), v) == WithTotal(items, v) {
          InsertWithTotal(items[0], rest, v);
        }
      }
      Insert(items[0], rest)
  }

  /** Totals {1: 15, 2: 20}, in that insertion order, sort as [(2, 20), (1, 15)]. */
  lemma SortExample()
    ensures SortByTotalDescending([("1", 15), ("2", 20)]) == [("2", 20), ("1", 15)]
  {
    assert [("1", 15), ("2", 20)][1..] == [("2", 20)];
  }

  /**
   * The sorted totals of a fold that raised nothing: largest first, one
   * entry per accepted product, and each entry's total is the sum of that
   * product's accepted amounts.
   */
  lemma RankedTotals<K>(cs: seq<Contribution<K>>)
    requires TallyFold(cs).Ok?
    ensures var t := TallyFold(cs).value;
      (forall k :: k in t.order ==> k in t.totals) &&
      var s := SortByTotalDescending(Items(t));
      && NonIncreasing(s)
      && DistinctKeys(s)
      && |s| == |FirstSeen(AcceptedIds(cs))|
      && (forall k, v :: (k, v) in s <==> k in AcceptedIds(cs) && v == AmountSum(cs, k))
  {
    var t := TallyFold(cs).value;
    TallySums(cs);
    var items := Items(t);
    var s := SortByTotalDescending(items);
    assert DistinctKeys(items) by {
      forall i, j | 0 <= i < j < |items| ensures items[i].0 != items[j].0 {
        assert items[i].0 == t.order[i] && items[j].0 == t.order[j];
      }
    }
    SortDistinctKeys(items);
    assert |s| == |items| by {
      assert |multiset(s)| == |s| && |multiset(items)| == |items|;
    }
    forall k, v ensures (k, v) in s <==> k in AcceptedIds(cs) && v == AmountSum(cs, k) {
      assert (k, v) in s <==> (k, v) in multiset(s);
      assert (k, v) in items <==> (k, v) in multiset(items);
      if k in AcceptedIds(cs) && v == AmountSum(cs, k) {
        var j :| 0 <= j < |t.order| && t.order[j] == k;
        assert items[j] == (k, v);
      }
    }
  }
}
