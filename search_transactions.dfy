/**
 * The transaction searches: by date, an order-preserving filter on the
 * exact text of the date field; by name, a filter that indexes the list
 * itself and so fails on any non-empty list.
 */
module SearchTransactions {
  import opened Wrappers
  import opened Calendar
  import opened Records

  /** a can be obtained from b by deleting elements, keeping the order of the rest. */
  predicate IsSubsequence<T(==)>(a: seq<T>, b: seq<T>)
    decreases |b|
  {
    if |a| == 0 then true
    else if |b| == 0 then false
    else if a[0] == b[0] then IsSubsequence(a[1..], b[1..])
    else IsSubsequence(a, b[1..])
  }

  /**
   * [t for t in transactions if t['date'] == date]: the rows whose date
   * text equals the query, in their order; a row without a date raises
   * KeyError, and a None date never matches.
   */
  function SearchByDate(transactions: seq<Row>, date: string): (r: Result<seq<Row>, PyError>)
    ensures r.Err? <==> exists i :: 0 <= i < |transactions| && transactions[i].date.Absent?
    ensures r.Err? ==> r.error == KeyError
    ensures r.Ok? ==> forall j :: 0 <= j < |r.value| ==> r.value[j].date == Text(date)
    decreases |transactions|
  {
    if |transactions| == 0 then Ok([])
    else
      var t := transactions[0];
      var rest := transactions[1..];
      if t.date.Absent? then Err(KeyError)
      else
        match SearchByDate(rest, date)
        case Err(x) => Err(x)
        case Ok(matches) => if t.date == Text(date) then Ok([t] + matches) else Ok(matches)
  }

  /** Every row with the queried date is found, as often as it occurs, and no other row is. */
  lemma {:induction false} SearchByDateComplete(transactions: seq<Row>, date: string)
    requires SearchByDate(transactions, date).Ok?
    ensures forall t :: multiset(SearchByDate(transactions, date).value)[t] ==
                        if t.date == Text(date) then multiset(transactions)[t] else 0
    decreases |transactions|
  {
    if |transactions| > 0 {
      var t0 := transactions[0];
      var rest := transactions[1..];
      assert transactions == [t0] + rest;
      assert multiset(transactions) == multiset([t0]) + multiset(rest);
      SearchByDateComplete(rest, date);
    }
  }

  /** The rows found keep their order in the input. */
  lemma {:induction false} SearchByDateOrdered(transactions: seq<Row>, date: string)
    requires SearchByDate(transactions, date).Ok?
    ensures IsSubsequence(SearchByDate(transactions, date).value, transactions)
    decreases |transactions|
  {
    if |transactions| > 0 {
      var t := transactions[0];
      var rest := transactions[1..];
      SearchByDateOrdered(rest, date);
      var matches := SearchByDate(rest, date).value;
      if t.date == Text(date) {
        assert ([t] + matches)[1..] == matches;
      } else {
        assert matches == [] || matches[0] != t;
      }
    }
  }

  /** Searching the result again for the same date changes nothing. */
  lemma {:induction false} SearchByDateIdempotent(transactions: seq<Row>, date: string)
    requires SearchByDate(transactions, date).Ok?
    ensures SearchByDate(SearchByDate(transactions, date).value, date) == SearchByDate(transactions, date)
    decreases |transactions|
  {
    if |transactions| > 0 {
      var t := transactions[0];
      var rest := transactions[1..];
      SearchByDateIdempotent(rest, date);
      var matches := SearchByDate(rest, date).value;
      if t.date == Text(date) {
        var r := [t] + matches;
        assert r[0] == t && r[1..] == matches;
      }
    }
  }

  /** Matching compares text, not dates: "01/03/2024" does not find a sale dated "1/3/2024", the same day. */
  lemma SearchByDateComparesText(t: Row)
    requires t.date == Text("1/3/2024")
    ensures ParseDayMonthYear("1/3/2024") == ParseDayMonthYear("01/03/2024")
    ensures SearchByDate([t], "01/03/2024") == Ok([])
  {
    UnpaddedFieldsAccepted();
    PaddedFieldsAccepted();
    assert [t][1..] == [];
    assert "1/3/2024" != "01/03/2024" by {
      assert "1/3/2024"[0] != "01/03/2024"[0];
    }
  }

  /**
   * [t for t in transactions if name.lower() in transactions['name'].lower()]:
   * the condition indexes the list with 'name', so an empty list yields no
   * matches and any other list raises TypeError.
   */
  function SearchByName(transactions: seq<Row>, name: string): (r: Result<seq<Row>, PyError>)
    ensures r.Ok? <==> |transactions| == 0
    ensures r.Ok? ==> r.value == []
    ensures r.Err? ==> r.error == TypeError
  {
    if |transactions| == 0 then Ok([]) else Err(TypeError)
  }
}
