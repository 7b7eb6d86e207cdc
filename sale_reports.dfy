/**
 * How the records the sale recorders write fare in the reports: a row
 * written for a sale and read back by the CSV reader is counted with its
 * own payment and quantity, while a sale stamped "%Y-%m-%d" is never
 * counted, because every report reads dates as "%d/%m/%Y".
 */
module SaleReports {
  import opened Wrappers
  import opened Text
  import opened Calendar
  import opened Records
  import opened Aggregates
  import opened Ranking
  import opened DisplayTransactions
  import opened LegacyDisplayTransactions

  /** Removing the first '.' of a text that holds one joins the pieces around it. */
  lemma {:induction false} RemoveFirstJoined(a: string, b: string)
    requires '.' !in a
    ensures RemoveFirst(a + ['.'] + b, '.') == a + b
    decreases |a|
  {
    if |a| > 0 {
      RemoveFirstJoined(a[1..], b);
      assert (a + ['.'] + b)[1..] == a[1..] + ['.'] + b;
      assert [a[0]] + (a[1..] + b) == a + b;
    }
  }

  /** str() of a non-negative cent amount passes the plain-decimal test of display_total_sales. */
  lemma FormattedCentsArePlain(m: nat)
    ensures IsPlainDecimal(FormatCents(m))
  {
    var f := m % 100;
    var whole := NatToString(m / 100);
    var frac := if f % 10 == 0 then [DigitChar(f / 10)] else Pad2(f);
    assert FormatCents(m) == whole + ['.'] + frac;
    assert '.' !in whole by {
      assert forall i :: 0 <= i < |whole| ==> IsDigit(whole[i]);
    }
    RemoveFirstJoined(whole, frac);
    assert AllDigits(whole + frac);
  }

  /** The fields of a written sale read back as the sale's own values. */
  lemma SaleRowFields(s: Sale, d: Date)
    requires ValidDate(d) && s.date == FormatDayMonthYear(d)
    ensures SaleRow(s).date == Text(s.date) && ParseDayMonthYear(s.date) == Some(d)
    ensures FloatField(SaleRow(s).payment) == Ok(s.payment)
    ensures IntField(SaleRow(s).quantity) == Ok(s.quantity)
    ensures FloatFieldOrZero(SaleRow(s).payment) == Ok(s.payment)
    ensures IntFieldOrZero(SaleRow(s).quantity) == Ok(s.quantity)
  {
    ParseFormatDayMonthYear(d);
    ParseFormatCents(s.payment);
    ParseIntToString(s.quantity);
  }

  /**
   * A sale stamped "%d/%m/%Y" on a day inside the range is counted by every
   * report: in its "%y-%m" or "%Y-%m" bucket with its payment and quantity,
   * and in the total of its product when that is in the catalog and the
   * payment is not negative.
   */
  lemma RecordedSaleCounted(s: Sale, d: Date, groceries: map<string, Item>, start: Date, end: Date)
    requires ValidDate(d) && s.date == FormatDayMonthYear(d) && Between(start, d, end)
    ensures MonthlyEffect(SaleRow(s), start, end) == Add(ShortMonthKey(d), s.payment, s.quantity)
    ensures ProductEffect(SaleRow(s), s.id, start, end) == Add(LongMonthKey(d), s.payment, s.quantity)
    ensures LegacyMonthlyEffect(SaleRow(s), start, end) == Add(ShortMonthKey(d), s.payment, s.quantity)
    ensures LegacyProductEffect(SaleRow(s), s.id, start, end) == Add(LongMonthKey(d), s.payment, s.quantity)
    ensures LegacyTotalContribution(SaleRow(s), start, end) == Accept(Some(s.id), s.payment)
    ensures s.id in groceries && s.payment >= 0 ==>
      TotalContribution(SaleRow(s), groceries, start, end) == Accept(s.id, s.payment)
  {
    SaleRowFields(s, d);
    if s.payment >= 0 {
      FormattedCentsArePlain(s.payment);
    }
  }

  /**
   * A sale stamped "%Y-%m-%d", as the manager menu stamps it, is skipped by
   * the current reports and the earlier total report, and ends the earlier
   * monthly and product reports with ValueError.
   */
  lemma IsoStampedSaleNotCounted(s: Sale, d: Date, groceryId: string, groceries: map<string, Item>,
                                 start: Date, end: Date)
    requires ValidDate(d) && s.date == FormatIso(d)
    ensures MonthlyEffect(SaleRow(s), start, end) == Skip
    ensures ProductEffect(SaleRow(s), groceryId, start, end) == Skip
    ensures TotalContribution(SaleRow(s), groceries, start, end) == Drop
    ensures LegacyMonthlyEffect(SaleRow(s), start, end) == Fail(ValueError)
    ensures LegacyProductEffect(SaleRow(s), groceryId, start, end) == Fail(ValueError)
    ensures LegacyTotalContribution(SaleRow(s), start, end) == Drop
  {
    IsoDateIsNotDayMonthYear(d);
  }
}
