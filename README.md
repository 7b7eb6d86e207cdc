# Grocery store sales and catalog logic in Dafny

This project models the in-memory logic of a small grocery store program.
That logic covers:

- recording a sale against the catalog's stock;
- adding and editing catalog items;
- logging in;
- searching the transaction log;
- the three sales reports: monthly, per product, and total by product.

Each report exists in two revisions, a current one in `utils/` and an earlier one at the top level.
For each report the model gives the data that would be handed to the chart.

Modelling choices:

- **Money** is integer cents.
  - Prices, payments and month sums are `int` numbers of hundredths.
  - Python's `float()` on a decimal string becomes `Text.ParseCents`.
  - `str()` of such a float becomes `Text.FormatCents`.
- **Dates** are `Calendar.Date` triples, valid when the day exists in its month (leap years included) and the year is 1 to 9999.
  - `strptime` with "%d/%m/%Y" is `Calendar.ParseDayMonthYear`. It accepts one- or two-digit days and months and a four-digit year.
  - "%m/%Y" is `Calendar.ParseMonthYear`, which gives the first day of the month.
  - The strftime keys "%y-%m" and "%Y-%m" are `ShortMonthKey` and `LongMonthKey`.
- **Rows** of the transaction file are `Records.Row`. Each field is a `Cell`: the column is missing (`Absent`), the line was too short (`NoneValue`), or the field has text.
  - This distinction decides which exception a report meets. Missing gives KeyError, None gives TypeError, bad text gives ValueError.
  - It also decides whether that exception is caught.
- **Shared state** is two classes of `Store`.
  - `Catalog` holds the grocery dict and is updated in place.
  - `SalesLog` holds the transaction list and is only appended to.
  - The operations that change them are methods with `modifies` clauses, stated as the new state in terms of the old.
- **Reports** are loops over the transactions that update a local dict.
  - Each is a method (`DisplayMonthlySales` and the others).
  - Its loop body is a row method (`MonthlyRow` and the others).
  - It is proved equal to a specification function built from a per-row effect (`Aggregates.Effect`, `Ranking.Contribution`), folded in order.
  - Lemmas about the folds say what the result means: which rows make the report raise, which months or products appear, and that each bucket or total is the sum over the rows counted in it.
  - The outcome is `Aggregates.Report`: `Chart(data)`, `NoChart(reason)` when the function returns early, or `Raised(error)` when an exception escapes.
- **Prompts and the clock** are parameters. Prompt answers are strings; `datetime.now()` is a `Timestamp`.

Behaviours of the code worth noting:

- **Quantity.** The code accepts any integer quantity, including zero and negative ones. A negative sale raises the stock (`Store.AfterSaleEffect`).
- **Errors in the searches.** `search_by_name` fails with TypeError on any non-empty list, and `search_by_date` raises KeyError on a row without a date. Neither skips such rows.
- **Month keys.** The current monthly report keys months as "%y-%m". Months a century apart share a bucket (`Calendar.ShortMonthKeyEqual`).
- **End of a month range.** A range given as months ends on the first day of the end month (`DisplayTransactions.MonthlyRangeEndsOnFirstDay`).
- **Manager menu.** In `grocery_store.py` it offers only sale, add item and logout. Its sale is stamped "%Y-%m-%d" and carries the payment as typed. No report counts such a date: the current reports and the earlier total report skip the row, and the earlier monthly and product reports raise ValueError on it (`SaleReports.IsoStampedSaleNotCounted`).
- **Earlier reports.** The earlier monthly and product reports do not skip malformed rows: an exception from such a row ends the report. The earlier total report skips a row whose date or payment raises ValueError or TypeError. Only a KeyError ends it: a row without a date, or an in-range row without an id or a payment. Its name lookup also raises KeyError for an id that is not in the catalog.

## Model

| member | source | states |
|---|---|---|
| Store.SalesLog.Append | utils/transaction_operations.py:40-48 | appending to the transaction log adds exactly the new record after the old ones |
| Store.WithNewItemEffect | grocery_operations.py:65-74 | storing under str(len+1) puts the item there and keeps every other entry; the catalog grows by one exactly when that id was free, and otherwise keeps its size |
| Store.ContiguousIdsNextIsFresh | grocery_operations.py:65 | when the ids are "1".."n", the new id is never taken |
| Store.NonContiguousIdsOverwrite | grocery_operations.py:65-74 | with ids "1" and "3", adding computes id "3" and replaces the item already stored there, so the catalog stays at two items |
| Store.AfterSaleEffect | utils/transaction_operations.py:92 | a sale changes only the stock of the sold item, by exactly the quantity; a negative quantity raises the stock |
| GroceryOperations.AddNewGroceryItem | grocery_operations.py:64-76 | succeeds exactly when the price parses as an amount of at most two decimals (`Text.ParseCents`) and int(stock) accepts its answer, and then stores the item under str(len+1); on ValueError the catalog is unchanged |
| GroceryOperations.EditGroceryItem | grocery_operations.py:78-95 | an unknown id changes nothing; otherwise only that entry changes, each empty answer keeps the current field, and a price that does not parse as an amount of at most two decimals, or a rejected stock, raises ValueError after the fields before it were assigned |
| GroceryStore.FirstNamed | grocery_store.py:24 | the generator's next() finds the first user with that name, or none when nobody has it |
| GroceryStore.AuthenticateUser | grocery_store.py:10-29 | login succeeds exactly when the first user with that name has that password, and then returns that user's type; every failure is (False, None, None) |
| GroceryStore.DuplicateUsernameShadowed | grocery_store.py:24-26 | a password held only by a later user with the same name does not log in |
| GroceryStore.ManagerSale | grocery_store.py:54-71 | a quantity int() rejects, or a payment that does not parse as an amount of at most two decimals, raises ValueError; the sale is accepted exactly when the id is known and the stock covers the quantity, and then appends one record with the entered payment and an ISO stamp and lowers the stock; a rejected sale changes nothing |
| GroceryStore.ManagerAddItem | grocery_store.py:72-83 | same update as add_new_grocery_item: the item is stored under str(len+1) when the price parses as an amount of at most two decimals and the stock as an integer, or ValueError leaves the catalog unchanged |
| TransactionOperations.RecordSalesTransaction | utils/transaction_operations.py:72-98 | unknown id, an unparseable quantity and too little stock each leave catalog and log unchanged; otherwise the record has the quantity, payment quantity times price and the "%d/%m/%Y" and "%I:%M:%S %p" stamps, the stock drops by the quantity and the log gains exactly that record |
| LegacyTransactionOperations.RecordSalesTransaction | transaction_operations.py:46-64 | an unparseable quantity raises ValueError; the sale is accepted exactly when the id is known and the stock covers the quantity, with the same record and stock update; a rejected sale changes nothing |
| Text.NatToString | grocery_operations.py:65 | str() of a count is a non-empty digit string without a leading zero |
| Text.NatToStringValue | grocery_operations.py:65 | str() of a count reads back as that count |
| Text.NatToStringInjective | grocery_operations.py:65 | different counts give different ids |
| Text.ParseIntToString | utils/transaction_operations.py:88 | int(str(q)) == q, so a written quantity reads back unchanged |
| Text.Split | utils/transaction_operations.py:85-86 | splitting on one separator gives at least one piece, and no piece contains the separator; `split()` with no argument splits on runs of whitespace, which gives the same pieces for the single-spaced stamps the recorder writes (`Calendar.Stamp12Pieces`, `Calendar.Stamp24Pieces`) |
| Text.ParseFormatCents | utils/transaction_operations.py:89 | float(str(p)) == p for any cent amount, so a written payment reads back unchanged |
| Text.RemoveFirst | utils/display_transactions.py:290 | replace('.', '', 1) returns a text without a '.' unchanged, and otherwise removes at most one character |
| Text.RemoveFirstAt | utils/display_transactions.py:290 | replace('.', '', 1) removes exactly the first '.' and keeps everything before and after it |
| Calendar.DaysInMonth | utils/display_transactions.py:134 | a month has 28 to 31 days, and 29 exactly for February of a leap year |
| Calendar.OnOrBeforeTotalOrder | utils/display_transactions.py:137 | date comparison is a total order |
| Calendar.ParseDayMonthYear | utils/display_transactions.py:134 | every date strptime("%d/%m/%Y") accepts is a real calendar date |
| Calendar.ParseMonthYear | utils/display_transactions.py:119-120 | strptime("%m/%Y") gives a valid date on day 1 |
| Calendar.ParseMonthYearIsFirstOfMonth | display_transactions.py:44-45 | reading "MM/YYYY" is reading "01/MM/YYYY" |
| Calendar.ParseFormatDayMonthYear | utils/transaction_operations.py:83-85 | a date stamped "%d/%m/%Y" reads back as the same date |
| Calendar.IsoDateIsNotDayMonthYear | grocery_store.py:60-62 | a date stamped "%Y-%m-%d" is rejected by strptime("%d/%m/%Y") |
| Calendar.UnpaddedFieldsAccepted | search_transanctions.py:17 | "1/3/2024" parses as 1 March 2024 |
| Calendar.PaddedFieldsAccepted | search_transanctions.py:17 | "01/03/2024" parses as 1 March 2024 |
| Calendar.ShortMonthKeyEqual | utils/display_transactions.py:138 | two dates share a "%y-%m" key exactly when their months are equal and their years agree modulo 100 |
| Calendar.LongMonthKeyEqual | utils/display_transactions.py:217 | two dates share a "%Y-%m" key exactly when they are in the same month of the same year |
| Calendar.Stamp12Pieces | utils/transaction_operations.py:83-86 | splitting the 12-hour stamp gives three pieces: the "%d/%m/%Y" date, then the clock and AM/PM rejoined as the time |
| Calendar.Stamp24Pieces | grocery_store.py:60-63 | splitting the 24-hour stamp gives the ISO date and the "%H:%M:%S" time |
| Aggregates.FoldAbort | utils/display_transactions.py:131-154 | when a row raises after rows that raised nothing, its exception ends the report |
| Aggregates.FoldFails | utils/display_transactions.py:131-154 | the month loop raises exactly when some row raises, and it raises the first such row's exception |
| Aggregates.FoldSums | utils/display_transactions.py:141-150 | without an exception, the dict has a bucket for exactly the months some row touched, and each bucket holds the sums of the payments, the quantities and the counted rows of that month |
| Ranking.TallyAbort | utils/display_transactions.py:272-295 | an escaping exception in row i, after rows that raised nothing, ends the total loop |
| Ranking.TallyFails | utils/display_transactions.py:272-295 | the total loop raises exactly when some row raises, with one such row's exception |
| Ranking.NoneAccepted | utils/display_transactions.py:298 | the totals stay empty exactly when no row is accepted |
| Ranking.TallySums | utils/display_transactions.py:271-291 | the totals hold exactly the accepted products, each with the sum of its accepted payments; keys are distinct and in first-accepted order |
| Ranking.Items | utils/display_transactions.py:302 | items() lists each key in insertion order with its total |
| Ranking.SortByTotalDescending | utils/display_transactions.py:302 | the sort is non-increasing by total, is a permutation of the items, and keeps entries with equal totals in their original order |
| Ranking.SortDistinctKeys | utils/display_transactions.py:302 | sorting dict items, whose keys are distinct, gives entries whose keys are still distinct |
| Ranking.SortExample | utils/display_transactions.py:302 | illustration only: totals 1:15 and 2:20, in that insertion order, sort as [(2, 20), (1, 15)] |
| Ranking.RankedTotals | utils/display_transactions.py:271-302 | the sorted totals are non-increasing, name no product twice, have one entry per accepted product, and pair each product with the sum of its accepted payments |
| DisplayTransactions.MonthlyEffects | utils/display_transactions.py:131-154 | one effect per transaction, in order |
| DisplayTransactions.MonthlyRow | utils/display_transactions.py:132-154 | one pass of the loop applies the row's effect to the dict or raises its exception |
| DisplayTransactions.DisplayMonthlySales | utils/display_transactions.py:117-158 | the imperative report returns exactly the specified result |
| DisplayTransactions.MonthlyEffectRaises | utils/display_transactions.py:132-154 | a row escapes the ValueError handler exactly when its date is missing or None, or, being in range, its payment is None, or its quantity is None after the payment converted |
| DisplayTransactions.MonthlyEffectTouches | utils/display_transactions.py:137-142 | a row that does not raise touches exactly the "%y-%m" bucket of an in-range date |
| DisplayTransactions.MonthlyFoldRaises | utils/display_transactions.py:131-154 | the loop raises exactly when some row raises |
| DisplayTransactions.MonthlyFoldKeys | utils/display_transactions.py:131-142 | the dict's keys are exactly the "%y-%m" keys of the in-range rows |
| DisplayTransactions.MonthlyFoldEmpty | utils/display_transactions.py:156 | the dict is empty exactly when no row is dated in the range |
| DisplayTransactions.MonthlySalesMeaning | utils/display_transactions.py:117-158 | for well-formed months and a non-empty list: the report raises exactly when a row raises; a chart's keys are the months of in-range rows and its buckets are the sums; "no sales" exactly when nothing raises and no row is in range |
| DisplayTransactions.MonthlyRangeEndsOnFirstDay | utils/display_transactions.py:119-137 | a sale in the end month after its first day is not counted |
| DisplayTransactions.MonthlyConversionFailure | utils/display_transactions.py:141-154 | an unparseable date skips the row; an in-range row whose payment or quantity float()/int() rejects leaves its bucket opened with nothing added |
| DisplayTransactions.ProductEffects | utils/display_transactions.py:212-230 | one effect per transaction, in order |
| DisplayTransactions.ProductCountRow | utils/display_transactions.py:219-224 | a matching row opens its "%Y-%m" bucket, then adds the payment, then the quantity and one sale, stopping at the first conversion that fails |
| DisplayTransactions.ProductRow | utils/display_transactions.py:213-230 | one pass of the loop applies the row's effect to the dict |
| DisplayTransactions.DisplayProductSales | utils/display_transactions.py:191-235 | the imperative report returns exactly the specified result |
| DisplayTransactions.ProductEffectCases | utils/display_transactions.py:213-230 | a row never raises (all three exceptions are caught) and touches exactly the "%Y-%m" bucket of an in-range row with the chosen id |
| DisplayTransactions.ProductSalesMeaning | utils/display_transactions.py:191-235 | for a known id and well-ordered months the report never raises; a chart's keys are the months of matching in-range rows and its buckets are the sums; "no sales data found" exactly when no row of the id is dated in the range |
| DisplayTransactions.ProductFoldKeys | utils/display_transactions.py:209-230 | the loop never raises, and its dict has a bucket for exactly the "%Y-%m" months of the id's in-range rows |
| DisplayTransactions.ProductFoldEmpty | utils/display_transactions.py:209-234 | the dict is empty, so the report says no sales data was found, exactly when no row of the id is dated in the range |
| DisplayTransactions.ProductQuantityFailure | utils/display_transactions.py:222-224 | when the payment converts but the quantity does not, the payment is added anyway |
| DisplayTransactions.TotalContributions | utils/display_transactions.py:272-295 | one contribution per transaction, in order |
| DisplayTransactions.AcceptedAreInCatalog | utils/display_transactions.py:284-286 | only catalog ids receive totals |
| DisplayTransactions.TotalRow | utils/display_transactions.py:273-295 | one pass of the loop skips the row, adds its payment to its product's total, or raises |
| DisplayTransactions.DisplayTotalSales | utils/display_transactions.py:264-303 | the imperative report returns exactly the specified result |
| DisplayTransactions.TotalContributionCases | utils/display_transactions.py:274-295 | a row raises exactly when it has all three fields and a None date, always with TypeError; it is counted exactly when it is dated in range, its id is in the catalog and its payment is a plain decimal, and then it adds that payment to that id |
| DisplayTransactions.TotalAcceptedIds | utils/display_transactions.py:272-291 | a product is accepted exactly when some counted row carries its id |
| DisplayTransactions.TotalFoldRaises | utils/display_transactions.py:278-295 | the loop raises exactly when some row raises, with TypeError |
| DisplayTransactions.TotalFoldEmpty | utils/display_transactions.py:298 | the totals are empty exactly when no row counts |
| DisplayTransactions.TotalFoldRanked | utils/display_transactions.py:302-303 | the ranking is non-increasing and names no id twice; names match the sorted ids one for one; it lists exactly the ids of counted rows, each with the sum of its payments |
| DisplayTransactions.TotalSalesRaises | utils/display_transactions.py:264-295 | for well-formed dates the report raises exactly when some row raises, with TypeError |
| DisplayTransactions.TotalSalesNoChart | utils/display_transactions.py:297-300 | "no sales" exactly when no row raises and no row counts |
| DisplayTransactions.TotalSalesChart | utils/display_transactions.py:302-303 | a chart is non-increasing by total, names no id twice, pairs each sorted id with its catalog name, and lists exactly the ids of counted rows, each with the sum of its counted payments |
| LegacyDisplayTransactions.LegacyMonthlyEffects | display_transactions.py:51-59 | one effect per transaction, in order |
| LegacyDisplayTransactions.LegacyMonthlyRow | display_transactions.py:52-59 | one pass of the loop applies the row's effect or raises its exception |
| LegacyDisplayTransactions.LegacyDisplayMonthlySales | display_transactions.py:42-63 | the imperative report returns exactly the specified result |
| LegacyDisplayTransactions.LegacyMonthlyEffectRaises | display_transactions.py:52-58 | a row raises exactly when its date is missing, None or unparseable, or, being in range, float(payment) or int(quantity) fails |
| LegacyDisplayTransactions.LegacyMonthlyEffectTouches | display_transactions.py:53-56 | a row that does not raise touches exactly the "%y-%m" bucket of an in-range date, and then adds payment, quantity and one sale |
| LegacyDisplayTransactions.LegacyMonthlySalesMeaning | display_transactions.py:42-63 | for well-formed months the report raises exactly when a row raises, and otherwise always charts, possibly an empty dict; keys are the months of in-range rows and buckets the sums |
| LegacyDisplayTransactions.LegacyProductEffects | display_transactions.py:85-93 | one effect per transaction, in order |
| LegacyDisplayTransactions.LegacyProductRow | display_transactions.py:86-93 | one pass of the loop applies the row's effect or raises its exception |
| LegacyDisplayTransactions.LegacyDisplayProductSales | display_transactions.py:73-102 | the imperative report returns exactly the specified result |
| LegacyDisplayTransactions.LegacyProductEffectRaises | display_transactions.py:86-92 | a row raises exactly when its date is missing, None or unparseable, its id is missing, or a matching in-range row has a payment or quantity that fails to convert |
| LegacyDisplayTransactions.LegacyProductEffectTouches | display_transactions.py:87-90 | a row that does not raise touches exactly the "%Y-%m" bucket of an in-range row with the chosen id |
| LegacyDisplayTransactions.LegacyProductSalesMeaning | display_transactions.py:73-102 | for a known id and well-formed months: raises exactly when a row raises, otherwise always charts; keys are the months of matching in-range rows and buckets are the sums |
| LegacyDisplayTransactions.LegacyProductReversedRange | display_transactions.py:77-93 | with the start month after the end month, the report either raises or charts an empty dict |
| LegacyDisplayTransactions.LegacyTotalContributions | display_transactions.py:126-135 | one contribution per transaction, in order |
| LegacyDisplayTransactions.LegacyTotalRow | display_transactions.py:127-135 | one pass of the loop skips the row, adds its payment to its id's total, or raises |
| LegacyDisplayTransactions.LegacyDisplayTotalSales | display_transactions.py:118-139 | the imperative report returns exactly the specified result |
| LegacyDisplayTransactions.GroceryNames | display_transactions.py:138 | the name list is built exactly when every sorted id is a catalog id, and then holds their names in order; otherwise KeyError |
| LegacyDisplayTransactions.LegacyTotalContributionCases | display_transactions.py:127-135 | a row raises, always KeyError, exactly when its date is missing, or, being in range, its id or payment is missing; it counts exactly when it is in range and float(payment) succeeds |
| LegacyDisplayTransactions.LegacyTotalAcceptedIds | display_transactions.py:126-131 | an id, possibly None, is accepted exactly when some counted row carries it |
| LegacyDisplayTransactions.LegacyTotalFoldRaises | display_transactions.py:126-135 | the loop raises exactly when some row raises, with KeyError |
| LegacyDisplayTransactions.RankingKnown | display_transactions.py:137-138 | the name lookup succeeds exactly when every accepted id is a catalog id |
| LegacyDisplayTransactions.RankingKnownOrder | display_transactions.py:137-138 | when the lookup succeeds, the ranking is non-increasing, names no id twice, and the names match the sorted ids one for one |
| LegacyDisplayTransactions.RankingKnownMembers | display_transactions.py:137-138 | when the lookup succeeds, the ranking lists exactly the accepted ids with the sums of their payments |
| LegacyDisplayTransactions.KnownRankingPairs | display_transactions.py:137-138 | the chart's pairs are exactly the sorted pairs |
| LegacyDisplayTransactions.LegacyTotalSalesRaises | display_transactions.py:118-139 | for well-formed dates the report raises, with KeyError, exactly when a row raises or some counted row's id is None or not in the catalog; otherwise it always charts |
| LegacyDisplayTransactions.LegacyTotalSalesChart | display_transactions.py:137-139 | a chart is non-increasing, names no id twice, pairs each id with its catalog name, and lists exactly the ids of counted rows with the sums of their payments |
| LegacyDisplayTransactions.LegacyCountsSignedPayment | display_transactions.py:131 | a payment of "-5" is counted as minus five units by the earlier total report |
| LegacyDisplayTransactions.MinusFiveCents | display_transactions.py:131 | float("-5") is -5.00 |
| LegacyDisplayTransactions.CurrentSkipsSignedPayment | utils/display_transactions.py:290 | the current total report skips the same row, since "-5" is not a plain decimal |
| SearchTransactions.SearchByDate | search_transanctions.py:16-18 | the search raises KeyError exactly when some row has no date; every row found has exactly the queried date text |
| SearchTransactions.SearchByDateComplete | search_transanctions.py:16-18 | every row with the queried date is found, as many times as it occurs, and no other row is |
| SearchTransactions.SearchByDateOrdered | search_transanctions.py:16-18 | the rows found are a subsequence of the input, in its order |
| SearchTransactions.SearchByDateIdempotent | search_transanctions.py:16-18 | searching the result again for the same date gives the same result |
| SearchTransactions.SearchByDateComparesText | search_transanctions.py:17 | "01/03/2024" does not find a row dated "1/3/2024", though both denote the same day |
| SearchTransactions.SearchByName | search_transanctions.py:22-24 | an empty list yields no matches; any other list raises TypeError, as the list itself is indexed with 'name' |
| SaleReports.FormattedCentsArePlain | utils/display_transactions.py:290 | a non-negative payment written by str() passes the plain-decimal test |
| SaleReports.SaleRowFields | utils/transaction_operations.py:84-90 | a written sale reads back with its own date, payment and quantity |
| SaleReports.RecordedSaleCounted | utils/transaction_operations.py:83-90 | a sale stamped "%d/%m/%Y" within the range is counted by every report: in its month bucket with its payment and quantity, and in its product's total (the current total report requires a catalog id and a non-negative payment) |
| SaleReports.IsoStampedSaleNotCounted | grocery_store.py:60-62 | a sale stamped "%Y-%m-%d" is skipped by every current report and by the earlier total report, and ends the earlier monthly and product reports with ValueError |

## Left out

- Plotting (`plot_graph`, `plot_bar_chart`, matplotlib, saving the images): the reports stop at the data they would pass to the chart. The key sorting in `plot_graph` and its empty-data and type checks are part of the plotting.
- Reading and writing the CSV files (`load_*`, `save_*`, grocery_load.py, transaction_load.py, users_load.py and utils/users_load.py):
  - appending to the file is `SalesLog.Append`;
  - rewriting the catalog file is the new state of `Catalog`;
  - `Records.SaleRow` is what the writer writes and the reader reads back;
  - the file-error handlers are not modelled.
- `input()`, `print`, the menu loop and `sys.argv` handling: the answers the prompts would return are parameters. Printed messages are not modelled; each message maps to a distinct outcome value.
- `display_transactions` in search_transanctions.py, which only prints the rows found.
- `datetime.now()`: the clock reading is a `Timestamp` parameter.
- Floating point:
  - amounts are exact integer cents;
  - `round(price, 2)` is the identity on whole cents;
  - sums do not accumulate rounding error;
  - `Text.FormatCents` always writes plain decimal notation, while Python's `str()` of a float switches to exponent form ("1e+16") from 1e16 up, and the current total report's plain-decimal test would then skip such a payment.
- Records.FloatField: accepts at most two decimals, so a payment text such as "1.234" is treated as one float() rejects. This affects every report that reads payments.
- Text.ParseInt and Text.ParseCents: only ASCII digits with an optional sign and, for amounts, one point followed by at most two decimals are modelled; an amount with three or more decimals, which float() accepts, is rejected. Python also accepts surrounding whitespace, '_' separators, exponents, "inf"/"nan" and other Unicode digits.
- Calendar.ParseDayMonthYear: `strptime` takes a four-digit "%Y" and years from 1. Years below 1000, which strftime would print without padding on some platforms, are not treated separately.
- DisplayTransactions.TotalContribution: the `isinstance` checks of `display_total_sales` are not modelled. Rows are always dicts of strings or None, and their arguments always have the right types.
- GroceryOperations.AddNewGroceryItem: a price with three or more decimals, such as "1.234", which float() accepts, is modelled as ValueError, so the item is not added.
- GroceryOperations.EditGroceryItem: a new price with three or more decimals, which float() accepts, is modelled as ValueError, raised after the new name was assigned; the price and stock are then not updated.
- GroceryStore.ManagerSale: a payment with three or more decimals, which float() accepts, is modelled as ValueError, so no sale is recorded.
- GroceryStore.ManagerAddItem: a price with three or more decimals, which float() accepts, is modelled as ValueError, so the item is not added.
- GroceryStore.AuthenticateUser: every user row is assumed to have a type. The KeyError that `user['type']` raises on a row without one is not modelled.
- TransactionOperations.RecordSalesTransaction: the KeyError and generic exception handlers are not modelled. A catalog item always has name, price and stock.
