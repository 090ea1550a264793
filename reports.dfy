/**
 * The reports screen: the normalised date range, income and expense
 * totals, the per-day line chart rows, the expense pie and the sign shown
 * beside each amount in the history table.
 */
module Reports {
  import opened Calendar
  import opened Sums
  import opened Ledger
  import opened Sorting
  import Accounts

  // ---- Date range ----

  /** A date range as the fetch uses it. */
  datatype Range = Range(from: Date, to: Date)

  /** Puts the two chosen dates in order, whichever order they were picked in. */
  function NormaliseRange(fromDate: Date, toDate: Date): (r: Range)
    ensures Ordinal(r.from) <= Ordinal(r.to)
    ensures multiset{r.from, r.to} == multiset{fromDate, toDate}
    ensures Ordinal(fromDate) <= Ordinal(toDate) ==> r == Range(fromDate, toDate)
  {
    var actualFrom := if Ordinal(fromDate) <= Ordinal(toDate) then fromDate else toDate;
    var actualTo := if Ordinal(toDate) >= Ordinal(fromDate) then toDate else fromDate;
    Range(actualFrom, actualTo)
  }

  // ---- Totals ----

  predicate IsIncome(t: Transaction) { t.kind == Income }

  function TotalIncome(txns: seq<Transaction>): int
  {
    Sum(Filter(txns, IsIncome), AmountOf)
  }

  function TotalExpense(txns: seq<Transaction>): int
  {
    Sum(Filter(txns, IsExpense), AmountOf)
  }

  function NetSavings(txns: seq<Transaction>): int
  {
    TotalIncome(txns) - TotalExpense(txns)
  }

  /**
   * The totals add every income (expense) amount once and nothing else,
   * so net savings is the sum of the transactions' signed effects on
   * their accounts' balances.
   */
  lemma TotalsSpec(txns: seq<Transaction>)
    ensures TotalIncome(txns) == Sum(txns, IncomeAmount)
    ensures TotalExpense(txns) == Sum(txns, ExpenseAmount)
    ensures NetSavings(txns) == Sum(txns, Accounts.SignedAmount)
  {
    SumFilter(txns, IsIncome, AmountOf, IncomeAmount);
    SumFilter(txns, IsExpense, AmountOf, ExpenseAmount);
    SumDifference(txns, Accounts.SignedAmount, IncomeAmount, ExpenseAmount);
  }

  // ---- Line chart ----

  /** One line-chart row: a date with that day's income and expense. */
  datatype LineRow = LineRow(date: Date, income: int, expense: int)

  function IncomeOfRow(r: LineRow): int { r.income }

  function ExpenseOfRow(r: LineRow): int { r.expense }

  function RowDate(r: LineRow): Date { r.date }

  /** The row for date `d`: the sums of that day's income and expense amounts. */
  function DateRow(txns: seq<Transaction>, d: Date): LineRow
  {
    LineRow(d, SumKey(txns, DateOf, d, IncomeAmount), SumKey(txns, DateOf, d, ExpenseAmount))
  }

  function RowOrdinal(r: LineRow): int { Ordinal(r.date) }

  /**
   * The rows hold one entry per distinct transaction date (a day with only
   * other kinds gets a zero row), each with that day's sums.
   */
  ghost predicate IsDayTable(rows: seq<LineRow>, txns: seq<Transaction>)
  {
    && DistinctBy(rows, RowDate)
    && (forall i :: 0 <= i < |rows| ==> rows[i] == DateRow(txns, rows[i].date))
    && (forall i :: 0 <= i < |rows| ==> DateSeen(txns, rows[i].date))
    && (forall j :: 0 <= j < |txns| ==> HasRowFor(rows, txns[j].date))
  }

  /** Some transaction is dated `d`. */
  predicate DateSeen(txns: seq<Transaction>, d: Date)
  {
    exists j :: 0 <= j < |txns| && txns[j].date == d
  }

  /** A date seen in a list is still seen once another transaction follows. */
  lemma DateSeenExtends(txns: seq<Transaction>, t: Transaction, d: Date)
    requires DateSeen(txns, d)
    ensures DateSeen(txns + [t], d)
  {
    var j :| 0 <= j < |txns| && txns[j].date == d;
    assert (txns + [t])[j] == txns[j];
  }

  /** Some row is the row of date `d`. */
  predicate HasRowFor(rows: seq<LineRow>, d: Date)
  {
    exists i :: 0 <= i < |rows| && rows[i].date == d
  }

  /** What the line chart is: the day table, ordered by date. */
  ghost predicate IsLineChart(rows: seq<LineRow>, txns: seq<Transaction>)
  {
    IsDayTable(rows, txns) && SortedBy(rows, RowOrdinal)
  }

  /** Appending a transaction adds its amounts to the row of its own date. */
  lemma DateRowSnoc(s: seq<Transaction>, t: Transaction, d: Date)
    ensures DateRow(s + [t], d)
         == if t.date == d
            then DateRow(s, d).(income := DateRow(s, d).income + IncomeAmount(t),
                                expense := DateRow(s, d).expense + ExpenseAmount(t))
            else DateRow(s, d)
  {
    assert (s + [t])[..|s|] == s;
  }

  /**
   * The grouping loop: a table keyed by date, each entry created at zero
   * the first time its date is seen, listed in first-seen order.
   */
  method GroupByDate(txns: seq<Transaction>) returns (order: seq<Date>, table: map<Date, LineRow>)
    ensures Distinct(order)
    ensures forall d :: d in table <==> d in order
    ensures forall i :: 0 <= i < |order| ==> DateSeen(txns, order[i])
    ensures forall j :: 0 <= j < |txns| ==> txns[j].date in order
    ensures forall d :: d in table ==> table[d] == DateRow(txns, d)
  {
    order := [];
    table := map[];
    var k := 0;
    while k < |txns|
      invariant 0 <= k <= |txns|
      invariant Distinct(order)
      invariant forall d :: d in table <==> d in order
      invariant forall i :: 0 <= i < |order| ==> DateSeen(txns[..k], order[i])
      invariant forall j :: 0 <= j < k ==> txns[j].date in table
      invariant forall d :: d in table ==> table[d] == DateRow(txns[..k], d)
    {
      var t := txns[k];
      ghost var order0, table0 := order, table;
      order, table := AddToTable(order, table, t);
      OrderKeysStep(order0, table0, t.date, order, table);
      assert txns[..k + 1] == txns[..k] + [t];
      OrderSeenStep(txns[..k], t, order0, order);
      TableStep(txns[..k], t, table0, table);
      forall j | 0 <= j < k + 1
        ensures txns[j].date in table
      {
        if j < k {
          assert txns[j].date in table0;
        }
      }
      k := k + 1;
    }
    assert txns[..k] == txns;
    assert forall j :: 0 <= j < |txns| ==> txns[j].date in table;
  }

  /**
   * The body of the grouping loop for one transaction: the row of its date
   * is created at zero when missing (its date joining the key list), then
   * credited with the amount when the transaction is an income or an expense.
   */
  method AddToTable(order: seq<Date>, table: map<Date, LineRow>, t: Transaction)
    returns (order': seq<Date>, table': map<Date, LineRow>)
    ensures order' == if t.date in table then order else order + [t.date]
    ensures table'.Keys == table.Keys + {t.date}
    ensures forall d :: d in table && d != t.date ==> table'[d] == table[d]
    ensures var base := if t.date in table then table[t.date] else LineRow(t.date, 0, 0);
      table'[t.date] == base.(income := base.income + IncomeAmount(t), expense := base.expense + ExpenseAmount(t))
  {
    order', table' := order, table;
    if t.date !in table' {
      table' := table'[t.date := LineRow(t.date, 0, 0)];
      order' := order' + [t.date];
    }
    var row := table'[t.date];
    if t.kind == Income {
      row := row.(income := row.income + t.amount);
    } else if t.kind == Expense {
      row := row.(expense := row.expense + t.amount);
    }
    table' := table'[t.date := row];
  }

  /**
   * One step of the grouping loop on the key list: a date is appended the
   * first time it is seen, so the list stays free of repeats and lists
   * exactly the table's dates.
   */
  lemma OrderKeysStep(order: seq<Date>, table: map<Date, LineRow>, d: Date,
                      order': seq<Date>, table': map<Date, LineRow>)
    requires Distinct(order) && forall e :: e in table <==> e in order
    requires order' == if d in table then order else order + [d]
    requires table'.Keys == table.Keys + {d}
    ensures Distinct(order') && forall e :: e in table' <==> e in order'
  {
    if d !in table {
      assert forall i :: 0 <= i < |order| ==> order'[i] == order[i];
    }
  }

  /** The same step keeps every listed date seen. */
  lemma OrderSeenStep(s: seq<Transaction>, t: Transaction, order: seq<Date>, order': seq<Date>)
    requires forall i :: 0 <= i < |order| ==> DateSeen(s, order[i])
    requires order' == order || order' == order + [t.date]
    ensures forall i :: 0 <= i < |order'| ==> DateSeen(s + [t], order'[i])
  {
    forall i | 0 <= i < |order'|
      ensures DateSeen(s + [t], order'[i])
    {
      if i < |order| {
        assert order'[i] == order[i];
        DateSeenExtends(s, t, order[i]);
      } else {
        assert (s + [t])[|s|] == t;
      }
    }
  }

  /**
   * One step of the grouping loop: if the table held the day sums of `s`
   * and the row of `t`'s date is created at zero when missing and then
   * credited, the table holds the day sums of `s + [t]`.
   */
  lemma TableStep(s: seq<Transaction>, t: Transaction, before: map<Date, LineRow>, after: map<Date, LineRow>)
    requires forall d :: d in before ==> before[d] == DateRow(s, d)
    requires forall j :: 0 <= j < |s| ==> s[j].date in before
    requires after.Keys == before.Keys + {t.date}
    requires forall d :: d in before && d != t.date ==> after[d] == before[d]
    requires var base := if t.date in before then before[t.date] else LineRow(t.date, 0, 0);
      after[t.date] == base.(income := base.income + IncomeAmount(t), expense := base.expense + ExpenseAmount(t))
    ensures forall d :: d in after ==> after[d] == DateRow(s + [t], d)
  {
    forall d | d in after
      ensures after[d] == DateRow(s + [t], d)
    {
      DateRowSnoc(s, t, d);
      if d == t.date && d !in before {
        SumKeyOfOthers(s, DateOf, d, IncomeAmount);
        SumKeyOfOthers(s, DateOf, d, ExpenseAmount);
      }
    }
  }

  /** Reordering rows that each hold their day's sums keeps every row holding its day's sums. */
  lemma PermutedRowsHoldSums(values: seq<LineRow>, rows: seq<LineRow>, txns: seq<Transaction>)
    requires multiset(rows) == multiset(values)
    requires forall m :: 0 <= m < |values| ==> values[m] == DateRow(txns, values[m].date)
    requires forall m :: 0 <= m < |values| ==> DateSeen(txns, values[m].date)
    ensures forall i :: 0 <= i < |rows| ==> rows[i] == DateRow(txns, rows[i].date)
    ensures forall i :: 0 <= i < |rows| ==> DateSeen(txns, rows[i].date)
  {
    forall i | 0 <= i < |rows|
      ensures rows[i] == DateRow(txns, rows[i].date) && DateSeen(txns, rows[i].date)
    {
      assert rows[i] in multiset(values);
      var m :| 0 <= m < |values| && values[m] == rows[i];
    }
  }

  /** Reordering rows keeps a row for every date that had one. */
  lemma PermutedRowsCover(values: seq<LineRow>, rows: seq<LineRow>, order: seq<Date>, txns: seq<Transaction>)
    requires multiset(rows) == multiset(values)
    requires |values| == |order| && forall m :: 0 <= m < |values| ==> values[m].date == order[m]
    requires forall j :: 0 <= j < |txns| ==> txns[j].date in order
    ensures forall j :: 0 <= j < |txns| ==> HasRowFor(rows, txns[j].date)
  {
    forall j | 0 <= j < |txns|
      ensures HasRowFor(rows, txns[j].date)
    {
      var m :| 0 <= m < |order| && order[m] == txns[j].date;
      assert values[m] in multiset(rows);
      var r :| 0 <= r < |rows| && rows[r] == values[m];
    }
  }

  /** Builds the rows: the grouped table's entries in first-seen order, then sorted by date. */
  method BuildLineChart(txns: seq<Transaction>) returns (rows: seq<LineRow>)
    ensures IsLineChart(rows, txns)
  {
    var order, table := GroupByDate(txns);
    var values := seq(|order|, i requires 0 <= i < |order| => table[order[i]]);
    assert forall i :: 0 <= i < |values| ==> values[i].date == order[i];
    rows := SortBy(values, RowOrdinal);
    SortByDistinct(values, RowOrdinal, RowDate);
    PermutedRowsHoldSums(values, rows, txns);
    PermutedRowsCover(values, rows, order, txns);
  }

  /** The dates of the rows, in row order. */
  function Dates(rows: seq<LineRow>): (r: seq<Date>)
    ensures |r| == |rows| && forall i :: 0 <= i < |rows| ==> r[i] == rows[i].date
  {
    if rows == [] then [] else Dates(rows[..|rows| - 1]) + [rows[|rows| - 1].date]
  }

  /** Adding up a column over rows that each hold their day's sums adds up the per-day sums. */
  lemma {:induction false} ColumnSums(rows: seq<LineRow>, txns: seq<Transaction>)
    requires forall i :: 0 <= i < |rows| ==> rows[i] == DateRow(txns, rows[i].date)
    ensures Sum(rows, IncomeOfRow) == SumByKeys(txns, Dates(rows), DateOf, IncomeAmount)
    ensures Sum(rows, ExpenseOfRow) == SumByKeys(txns, Dates(rows), DateOf, ExpenseAmount)
  {
    if rows != [] {
      var init := rows[..|rows| - 1];
      ColumnSums(init, txns);
      assert Dates(rows)[..|rows| - 1] == Dates(init);
    }
  }

  /**
   * Every transaction falls on exactly one row, so the income and expense
   * columns add up to the income and expense totals.
   */
  lemma LineChartColumns(rows: seq<LineRow>, txns: seq<Transaction>)
    requires IsDayTable(rows, txns)
    ensures Sum(rows, IncomeOfRow) == TotalIncome(txns)
    ensures Sum(rows, ExpenseOfRow) == TotalExpense(txns)
  {
    ColumnSums(rows, txns);
    var dates := Dates(rows);
    assert Distinct(dates);
    forall x | x in txns
      ensures DateOf(x) in dates
    {
      var j :| 0 <= j < |txns| && txns[j] == x;
      assert HasRowFor(rows, txns[j].date);
      var i :| 0 <= i < |rows| && rows[i].date == x.date;
      assert dates[i] == x.date;
    }
    SumOverKeys(txns, dates, DateOf, IncomeAmount);
    SumOverKeys(txns, dates, DateOf, ExpenseAmount);
    TotalsSpec(txns);
  }

  /** Two different valid dates in date order have strictly increasing ordinals. */
  lemma DistinctDatesAscend(a: Date, b: Date)
    requires Valid(a) && Valid(b) && a != b && Ordinal(a) <= Ordinal(b)
    ensures Ordinal(a) < Ordinal(b)
  {
    if Ordinal(a) == Ordinal(b) {
      OrdinalInjective(a, b);
    }
  }

  /** For valid dates the rows are strictly ascending: no date appears twice. */
  lemma LineChartStrictlyAscending(rows: seq<LineRow>, txns: seq<Transaction>)
    requires IsLineChart(rows, txns)
    requires forall j :: 0 <= j < |txns| ==> Valid(txns[j].date)
    ensures forall i, j :: 0 <= i < j < |rows| ==> RowOrdinal(rows[i]) < RowOrdinal(rows[j])
  {
    forall i, j | 0 <= i < j < |rows|
      ensures RowOrdinal(rows[i]) < RowOrdinal(rows[j])
    {
      assert DateSeen(txns, rows[i].date) && DateSeen(txns, rows[j].date);
      var a :| 0 <= a < |txns| && txns[a].date == rows[i].date;
      var b :| 0 <= b < |txns| && txns[b].date == rows[j].date;
      assert RowOrdinal(rows[i]) <= RowOrdinal(rows[j]);
      assert RowDate(rows[i]) != RowDate(rows[j]);
      DistinctDatesAscend(rows[i].date, rows[j].date);
    }
  }

  // ---- Pie chart ----

  /** The category reduce: a key list in first-seen order and a running total per key. */
  method ReduceByCategory(expenses: seq<Transaction>) returns (order: seq<string>, totals: map<string, int>)
    ensures CategoryTotals(order, totals) == CategoryFold(expenses)
  {
    order := [];
    totals := map[];
    var k := 0;
    while k < |expenses|
      invariant 0 <= k <= |expenses|
      invariant CategoryTotals(order, totals) == CategoryFold(expenses[..k])
    {
      var t := expenses[k];
      ghost var order0, totals0 := order, totals;
      var previous := if t.category in totals then totals[t.category] else 0;
      if t.category !in totals {
        order := order + [t.category];
      }
      totals := totals[t.category := previous + t.amount];
      CategoryFoldStep(expenses, k, order0, totals0, order, totals);
      k := k + 1;
    }
    assert expenses[..k] == expenses;
  }

  /** Builds the expense pie: the category reduce over the expense transactions, then its entries. */
  method BuildPieData(txns: seq<Transaction>) returns (pie: seq<Slice>)
    ensures pie == CategorySpending(txns)
  {
    var order, totals := ReduceByCategory(Filter(txns, IsExpense));
    CategoryFoldWellFormed(Filter(txns, IsExpense));
    pie := EntriesOf(order, totals);
  }

  /** The pie has one slice per expense category and its values add up to the expense total. */
  lemma PieTotalsExpense(txns: seq<Transaction>)
    ensures Sum(CategorySpending(txns), ValueOf) == TotalExpense(txns)
  {
    CategorySpendingValues(txns);
    TotalsSpec(txns);
  }

  // ---- History table ----

  /** The sign and the magnitude shown for a transaction's amount. */
  datatype AmountText = AmountText(sign: string, magnitude: nat)

  function AmountDisplay(t: Transaction): (a: AmountText)
    ensures a.sign == "+" <==> t.kind == Income
    ensures a.sign == "-" <==> t.kind != Income
    ensures a.magnitude == if t.amount < 0 then -t.amount else t.amount
  {
    AmountText(if t.kind == Income then "+" else "-", if t.amount < 0 then -t.amount else t.amount)
  }

  /** The value a displayed amount reads as: the magnitude with its sign. */
  function SignedValue(a: AmountText): int
  {
    if a.sign == "+" then a.magnitude else -(a.magnitude as int)
  }

  /**
   * For income and expense rows with a non-negative amount the displayed
   * value is the transaction's effect on its account's balance; any other
   * kind is shown as money out, although it changes no balance.
   */
  lemma AmountDisplayMatchesBalanceEffect(t: Transaction)
    requires t.amount >= 0
    ensures t.kind == Income || t.kind == Expense ==> SignedValue(AmountDisplay(t)) == Accounts.SignedAmount(t)
    ensures t.kind.OtherKind? ==> SignedValue(AmountDisplay(t)) == -t.amount && Accounts.SignedAmount(t) == 0
  {
  }
}
