/**
 * The dashboard: total balance, the five most recent transactions, this
 * month's income and spending, and the income/expense trend over the last
 * one to twelve months.  The category breakdown it shows is
 * `Ledger.CategorySpending`.
 */
module Dashboard {
  import opened Calendar
  import opened Sums
  import opened Ledger
  import Accounts
  import Reports
  import Budgets

  /** The sum of all account balances. */
  function TotalBalance(accounts: seq<Account>, txns: seq<Transaction>): int
  {
    Sum(accounts, Accounts.BalanceIn(txns))
  }

  /** The total balance is the net-worth card's assets plus its liabilities. */
  lemma TotalBalanceSplit(accounts: seq<Account>, txns: seq<Transaction>)
    ensures TotalBalance(accounts, txns)
         == Accounts.TotalAssets(accounts, txns) + Accounts.TotalLiabilities(accounts, txns)
  {
    Accounts.NetWorthPartition(accounts, txns);
  }

  /** The first five transactions of the fetched list, or all of them when there are fewer. */
  function RecentTxns(txns: seq<Transaction>): (r: seq<Transaction>)
    ensures |r| == if |txns| < 5 then |txns| else 5
    ensures r == txns[..|r|]
  {
    if |txns| < 5 then txns else txns[..5]
  }

  /** Dates never increase along the list, as the fetch orders them. */
  predicate NewestFirst(txns: seq<Transaction>)
  {
    forall i, j :: 0 <= i < j < |txns| ==> Ordinal(txns[j].date) <= Ordinal(txns[i].date)
  }

  /**
   * On a newest-first list the recent transactions are the most recent
   * ones: every transaction left out is dated no later than every one shown.
   */
  lemma RecentAreNewest(txns: seq<Transaction>)
    requires NewestFirst(txns)
    ensures var r := RecentTxns(txns);
      forall i, j :: 0 <= i < |r| <= j < |txns| ==> Ordinal(txns[j].date) <= Ordinal(r[i].date)
  {
  }

  /** The account column of a recent transaction: the name of the first account with its id, else "". */
  function AccountName(accounts: seq<Account>, id: int): (name: string)
    ensures (forall i :: 0 <= i < |accounts| ==> accounts[i].id != id) ==> name == ""
    ensures forall i ::
      0 <= i < |accounts| && accounts[i].id == id && (forall j :: 0 <= j < i ==> accounts[j].id != id) ==>
      name == accounts[i].name
  {
    if accounts == [] then ""
    else if accounts[0].id == id then accounts[0].name
    else
      assert forall i :: 1 <= i < |accounts| ==> accounts[i] == accounts[1..][i - 1];
      AccountName(accounts[1..], id)
  }

  /** The sign before a recent transaction's amount: "-" for an expense, "+" for every other kind. */
  function RecentSign(t: Transaction): (sign: string)
    ensures sign == "-" <==> t.kind == Expense
    ensures sign == "+" <==> t.kind != Expense
  {
    if t.kind == Expense then "-" else "+"
  }

  /**
   * The dashboard's recent list and the reports' history table agree on
   * income and expense rows but sign any other kind oppositely: "+" here,
   * "-" there.
   */
  lemma SignsAcrossScreens(t: Transaction)
    ensures t.kind == Income || t.kind == Expense ==> RecentSign(t) == Reports.AmountDisplay(t).sign
    ensures t.kind.OtherKind? ==> RecentSign(t) == "+" && Reports.AmountDisplay(t).sign == "-"
  {
  }

  /** Whether a transaction has kind `kind` and lies between the start and the end of the month of `now`. */
  function InMonthOf(kind: Kind, now: Date): Transaction -> bool
  {
    (t: Transaction) =>
      t.kind == kind && Ordinal(StartOfMonth(now)) <= Ordinal(t.date) <= Ordinal(EndOfMonth(now))
  }

  /** The sum of this month's amounts of one kind. */
  function MonthlyTotal(txns: seq<Transaction>, kind: Kind, now: Date): int
  {
    Sum(Filter(txns, InMonthOf(kind, now)), AmountOf)
  }

  /** Whether a transaction has kind `kind` and the month and year of `now`. */
  function SameMonth(kind: Kind, now: Date): Transaction -> bool
  {
    (t: Transaction) => t.kind == kind && Budgets.InPeriod(t.date, "monthly", now)
  }

  /**
   * For valid dates the month window is "same month and year as now", the
   * rule the budgets screen uses for a monthly budget.
   */
  lemma MonthlyTotalSameMonth(txns: seq<Transaction>, kind: Kind, now: Date)
    requires Valid(now) && forall i :: 0 <= i < |txns| ==> Valid(txns[i].date)
    ensures MonthlyTotal(txns, kind, now) == Sum(Filter(txns, SameMonth(kind, now)), AmountOf)
  {
    forall i | 0 <= i < |txns|
      ensures InMonthOf(kind, now)(txns[i]) == SameMonth(kind, now)(txns[i])
    {
      InMonthIff(txns[i].date, now);
    }
    FilterCongruent(txns, InMonthOf(kind, now), SameMonth(kind, now));
  }

  // ---- Trend ----

  /** The number of months a time-range choice shows. */
  function TrendMonths(timeRange: string): (months: nat)
    ensures months in {1, 3, 6, 12}
    ensures timeRange == "1M" ==> months == 1
    ensures timeRange == "3M" ==> months == 3
    ensures timeRange == "6M" ==> months == 6
    ensures timeRange == "1Y" ==> months == 12
    ensures timeRange !in {"1M", "3M", "1Y"} ==> months == 6
  {
    var months := 6;
    var months := if timeRange == "1M" then 1 else months;
    var months := if timeRange == "3M" then 3 else months;
    var months := if timeRange == "6M" then 6 else months;
    if timeRange == "1Y" then 12 else months
  }

  /** One bar of the trend chart: a month label and that month's income and expense. */
  datatype TrendBucket = TrendBucket(month: int, income: int, expense: int)

  function TxnMonth(t: Transaction): int { MonthOrd(t.date) }

  function IncomeOfBucket(b: TrendBucket): int { b.income }

  function ExpenseOfBucket(b: TrendBucket): int { b.expense }

  /** Whether a transaction is dated strictly after day ordinal `start`. */
  function After(start: int): Transaction -> bool
  {
    (t: Transaction) => Ordinal(t.date) > start
  }

  /** The month label of the oldest bucket. */
  function EarliestMonth(months: nat, now: Date): int
  {
    MonthOrd(now) - (months - 1)
  }

  /** The day ordinal transactions must come after: the first day of the oldest month. */
  function TrendStart(months: nat, now: Date): int
  {
    Ordinal(FirstOfMonth(EarliestMonth(months, now)))
  }

  /** The bucket of month `month` over the transactions of `s` dated after `start`. */
  function Bucket(s: seq<Transaction>, start: int, month: int): TrendBucket
  {
    var counted := Filter(s, After(start));
    TrendBucket(month, SumKey(counted, TxnMonth, month, IncomeAmount), SumKey(counted, TxnMonth, month, ExpenseAmount))
  }

  /** `n` buckets for the consecutive months from `first` on. */
  function Buckets(s: seq<Transaction>, start: int, first: int, n: nat): seq<TrendBucket>
  {
    seq(n, b requires 0 <= b < n => Bucket(s, start, first + b))
  }

  /** Bucket `b` is labelled with the `b`-th month from `first`. */
  lemma BucketsMonths(s: seq<Transaction>, start: int, first: int, n: nat)
    ensures |Buckets(s, start, first, n)| == n
    ensures forall b :: 0 <= b < n ==> Buckets(s, start, first, n)[b].month == first + b
  {
    forall b | 0 <= b < n
      ensures Buckets(s, start, first, n)[b].month == first + b
    {
      assert Buckets(s, start, first, n)[b] == Bucket(s, start, first + b);
    }
  }

  /** The trend chart: `months` buckets, oldest first, the last for the month of `now`. */
  function TrendSpec(txns: seq<Transaction>, months: nat, now: Date): seq<TrendBucket>
  {
    Buckets(txns, TrendStart(months, now), EarliestMonth(months, now), months)
  }

  /** A bucket after seeing transaction `t`: its amounts added when it is after `start` and of the bucket's month. */
  function AddTo(bucket: TrendBucket, t: Transaction, start: int): TrendBucket
  {
    if After(start)(t) && TxnMonth(t) == bucket.month
    then bucket.(income := bucket.income + IncomeAmount(t), expense := bucket.expense + ExpenseAmount(t))
    else bucket
  }

  /** Over no transactions a bucket is zero. */
  lemma BucketOfNone(start: int, month: int)
    ensures Bucket([], start, month) == TrendBucket(month, 0, 0)
  {
    assert Filter([], After(start)) == [];
  }

  /** Appending a transaction to the list moves a bucket on by that one transaction. */
  lemma BucketSnoc(s: seq<Transaction>, t: Transaction, start: int, month: int)
    ensures Bucket(s + [t], start, month) == AddTo(Bucket(s, start, month), t, start)
  {
    assert (s + [t])[..|s|] == s;
    var c := Filter(s, After(start));
    var c' := Filter(s + [t], After(start));
    if After(start)(t) {
      assert c' == c + [t];
      assert c'[..|c'| - 1] == c;
    } else {
      assert c' == c;
    }
  }

  /** Appending a transaction to the list moves every bucket on by that one transaction. */
  lemma BucketsSnoc(s: seq<Transaction>, t: Transaction, start: int, first: int, n: nat)
    ensures forall b :: 0 <= b < n ==>
      Buckets(s + [t], start, first, n)[b] == AddTo(Buckets(s, start, first, n)[b], t, start)
  {
    forall b | 0 <= b < n
      ensures Buckets(s + [t], start, first, n)[b] == AddTo(Buckets(s, start, first, n)[b], t, start)
    {
      BucketSnoc(s, t, start, first + b);
    }
  }

  /** The index of the first bucket with month label `month`, or -1 (`Array.prototype.find`). */
  method FindBucket(data: seq<TrendBucket>, month: int) returns (j: int)
    ensures -1 <= j < |data|
    ensures j == -1 ==> forall b :: 0 <= b < |data| ==> data[b].month != month
    ensures j >= 0 ==> data[j].month == month && forall b :: 0 <= b < j ==> data[b].month != month
  {
    j := 0;
    while j < |data|
      invariant 0 <= j <= |data|
      invariant forall b :: 0 <= b < j ==> data[b].month != month
    {
      if data[j].month == month {
        return;
      }
      j := j + 1;
    }
    j := -1;
  }

  /**
   * The per-transaction step: a transaction dated after `start` has its
   * income or expense amount added to the bucket with its month label, if
   * there is one.
   */
  method AddTransaction(trend: seq<TrendBucket>, t: Transaction, start: int) returns (r: seq<TrendBucket>)
    requires forall a, b :: 0 <= a < b < |trend| ==> trend[a].month != trend[b].month
    ensures |r| == |trend|
    ensures forall b :: 0 <= b < |trend| ==> r[b] == AddTo(trend[b], t, start)
  {
    r := trend;
    if Ordinal(t.date) > start {
      var month := MonthOrd(t.date);
      var j := FindBucket(r, month);
      if j >= 0 {
        if t.kind == Income {
          r := r[j := r[j].(income := r[j].income + t.amount)];
        }
        if t.kind == Expense {
          r := r[j := r[j].(expense := r[j].expense + t.amount)];
        }
      }
    }
  }

  /** The consecutive month labels from `first` on. */
  function MonthRange(first: int, n: nat): seq<int>
  {
    seq(n, b requires 0 <= b < n => first + b)
  }

  /** Pushes the labels of the last `months` months, oldest first. */
  method MonthLabels(months: nat, now: Date) returns (labels: seq<int>)
    ensures labels == MonthRange(EarliestMonth(months, now), months)
  {
    labels := [];
    var i := months as int - 1;
    while i >= 0
      invariant -1 <= i <= months - 1
      invariant |labels| == months - 1 - i
      invariant forall b :: 0 <= b < |labels| ==> labels[b] == EarliestMonth(months, now) + b
    {
      labels := labels + [MonthOrd(now) - i];
      i := i - 1;
    }
  }

  /** Runs the per-transaction step over the whole list, in order. */
  method AddTransactions(txns: seq<Transaction>, start: int, first: int, n: nat, zero: seq<TrendBucket>)
    returns (trend: seq<TrendBucket>)
    requires zero == Buckets([], start, first, n)
    ensures trend == Buckets(txns, start, first, n)
  {
    trend := zero;
    var k := 0;
    while k < |txns|
      invariant 0 <= k <= |txns|
      invariant trend == Buckets(txns[..k], start, first, n)
    {
      var t := txns[k];
      assert txns[..k + 1] == txns[..k] + [t];
      BucketsSnoc(txns[..k], t, start, first, n);
      BucketsMonths(txns[..k], start, first, n);
      trend := AddTransaction(trend, t, start);
      k := k + 1;
    }
    assert txns[..|txns|] == txns;
  }

  /**
   * Builds the trend: the month labels oldest first, every bucket starting
   * at zero, then each transaction dated after the first day of the oldest
   * month added to the bucket with its month label, income to income and
   * expense to expense.
   */
  method GetTrendData(txns: seq<Transaction>, timeRange: string, now: Date) returns (trend: seq<TrendBucket>)
    ensures trend == TrendSpec(txns, TrendMonths(timeRange), now)
  {
    var months := TrendMonths(timeRange);
    var labels := MonthLabels(months, now);
    var zero := seq(|labels|, b requires 0 <= b < |labels| => TrendBucket(labels[b], 0, 0));
    var start := TrendStart(months, now);
    var first := EarliestMonth(months, now);
    forall b | 0 <= b < months
      ensures zero[b] == Buckets([], start, first, months)[b]
    {
      BucketOfNone(start, first + b);
    }
    trend := AddTransactions(txns, start, first, months, zero);
  }

  lemma MonthRangeDistinct(first: int, n: nat)
    ensures Distinct(MonthRange(first, n))
  {
  }

  /** Summing bucket incomes is summing the per-month income sums over the bucket labels. */
  lemma {:induction false} BucketIncomesSum(s: seq<Transaction>, start: int, first: int, n: nat)
    ensures Sum(Buckets(s, start, first, n), IncomeOfBucket)
         == SumByKeys(Filter(s, After(start)), MonthRange(first, n), TxnMonth, IncomeAmount)
  {
    if n > 0 {
      BucketIncomesSum(s, start, first, n - 1);
      var r := Buckets(s, start, first, n);
      assert r[..n - 1] == Buckets(s, start, first, n - 1);
      assert MonthRange(first, n)[..n - 1] == MonthRange(first, n - 1);
      assert r[n - 1] == Bucket(s, start, first + n - 1);
    }
  }

  /** When every counted transaction falls in the bucket months, its month is one of the bucket labels. */
  lemma CountedInRange(s: seq<Transaction>, start: int, first: int, n: nat)
    requires forall i :: 0 <= i < |s| && After(start)(s[i]) ==> first <= TxnMonth(s[i]) < first + n
    ensures forall x :: x in Filter(s, After(start)) ==> TxnMonth(x) in MonthRange(first, n)
  {
    var keys := MonthRange(first, n);
    forall x | x in Filter(s, After(start))
      ensures TxnMonth(x) in keys
    {
      var i :| 0 <= i < |s| && s[i] == x;
      assert keys[TxnMonth(x) - first] == TxnMonth(x);
    }
  }

  /**
   * When every counted transaction falls in one of the bucket months, the
   * bucket incomes add up to the income of the counted transactions: none
   * is counted twice and none is lost.
   */
  lemma BucketIncomesConserved(s: seq<Transaction>, start: int, first: int, n: nat)
    requires forall i :: 0 <= i < |s| && After(start)(s[i]) ==> first <= TxnMonth(s[i]) < first + n
    ensures Sum(Buckets(s, start, first, n), IncomeOfBucket) == Sum(Filter(s, After(start)), IncomeAmount)
  {
    BucketIncomesSum(s, start, first, n);
    CountedInRange(s, start, first, n);
    MonthRangeDistinct(first, n);
    SumOverKeys(Filter(s, After(start)), MonthRange(first, n), TxnMonth, IncomeAmount);
  }

  /** A valid date after the start of the trend lies in the oldest month or later. */
  lemma AfterStartMonth(d: Date, months: nat, now: Date)
    requires Valid(d) && Ordinal(d) > TrendStart(months, now)
    ensures MonthOrd(d) >= EarliestMonth(months, now)
  {
    OrdinalOrder(d, FirstOfMonth(EarliestMonth(months, now)));
  }

  /** Every transaction date is a valid date no later than the month of `now`. */
  predicate DatedUpTo(txns: seq<Transaction>, now: Date)
  {
    forall i :: 0 <= i < |txns| ==> Valid(txns[i].date) && MonthOrd(txns[i].date) <= MonthOrd(now)
  }

  /**
   * Each transaction lands in at most one bucket: when no transaction is
   * dated after the current month, the trend's incomes add up to the
   * income of the transactions dated after the start.
   */
  lemma TrendIncomeConserved(txns: seq<Transaction>, months: nat, now: Date)
    requires DatedUpTo(txns, now)
    ensures Sum(TrendSpec(txns, months, now), IncomeOfBucket)
         == Sum(Filter(txns, After(TrendStart(months, now))), IncomeAmount)
  {
    var start, first := TrendStart(months, now), EarliestMonth(months, now);
    forall i | 0 <= i < |txns| && After(start)(txns[i])
      ensures first <= TxnMonth(txns[i]) < first + months
    {
      AfterStartMonth(txns[i].date, months, now);
    }
    BucketIncomesConserved(txns, start, first, months);
  }

  /** Summing bucket expenses is summing the per-month expense sums over the bucket labels. */
  lemma {:induction false} BucketExpensesSum(s: seq<Transaction>, start: int, first: int, n: nat)
    ensures Sum(Buckets(s, start, first, n), ExpenseOfBucket)
         == SumByKeys(Filter(s, After(start)), MonthRange(first, n), TxnMonth, ExpenseAmount)
  {
    if n > 0 {
      BucketExpensesSum(s, start, first, n - 1);
      var r := Buckets(s, start, first, n);
      assert r[..n - 1] == Buckets(s, start, first, n - 1);
      assert MonthRange(first, n)[..n - 1] == MonthRange(first, n - 1);
      assert r[n - 1] == Bucket(s, start, first + n - 1);
    }
  }

  /** The expense side of `BucketIncomesConserved`. */
  lemma BucketExpensesConserved(s: seq<Transaction>, start: int, first: int, n: nat)
    requires forall i :: 0 <= i < |s| && After(start)(s[i]) ==> first <= TxnMonth(s[i]) < first + n
    ensures Sum(Buckets(s, start, first, n), ExpenseOfBucket) == Sum(Filter(s, After(start)), ExpenseAmount)
  {
    BucketExpensesSum(s, start, first, n);
    CountedInRange(s, start, first, n);
    MonthRangeDistinct(first, n);
    SumOverKeys(Filter(s, After(start)), MonthRange(first, n), TxnMonth, ExpenseAmount);
  }

  /**
   * The expense side of `TrendIncomeConserved`: when no transaction is
   * dated after the current month, the trend's expenses add up to the
   * expense of the transactions dated after the start.
   */
  lemma TrendExpenseConserved(txns: seq<Transaction>, months: nat, now: Date)
    requires DatedUpTo(txns, now)
    ensures Sum(TrendSpec(txns, months, now), ExpenseOfBucket)
         == Sum(Filter(txns, After(TrendStart(months, now))), ExpenseAmount)
  {
    var start, first := TrendStart(months, now), EarliestMonth(months, now);
    forall i | 0 <= i < |txns| && After(start)(txns[i])
      ensures first <= TxnMonth(txns[i]) < first + months
    {
      AfterStartMonth(txns[i].date, months, now);
    }
    BucketExpensesConserved(txns, start, first, months);
  }

  /**
   * The start is exclusive: a transaction dated on the first day of the
   * oldest month changes no bucket.
   */
  lemma TrendSkipsFirstDay(txns: seq<Transaction>, t: Transaction, months: nat, now: Date)
    requires t.date == FirstOfMonth(EarliestMonth(months, now))
    ensures TrendSpec(txns + [t], months, now) == TrendSpec(txns, months, now)
  {
    BucketsSnoc(txns, t, TrendStart(months, now), EarliestMonth(months, now), months);
  }

  /** With no transactions every bucket is zero, and the newest bucket is the month of `now`. */
  lemma TrendOfNoTransactions(months: nat, now: Date)
    ensures forall b :: 0 <= b < months ==>
      TrendSpec([], months, now)[b] == TrendBucket(EarliestMonth(months, now) + b, 0, 0)
    ensures months >= 1 ==> TrendSpec([], months, now)[months - 1].month == MonthOrd(now)
  {
    forall b | 0 <= b < months
      ensures TrendSpec([], months, now)[b] == TrendBucket(EarliestMonth(months, now) + b, 0, 0)
    {
      BucketOfNone(TrendStart(months, now), EarliestMonth(months, now) + b);
    }
  }
}
