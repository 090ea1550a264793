/**
 * The rows every screen reads — accounts and transactions — and the
 * per-category expense breakdown that both the dashboard
 * (`getCategorySpending`) and the reports screen (`categoryData`) compute
 * with the same reduce over expense transactions.
 */
module Ledger {
  import opened Wrappers
  import opened Calendar
  import opened Sums

  /** The `type` column of a transaction: "income", "expense" or any other text. */
  datatype Kind = Income | Expense | OtherKind(name: string)

  /** A transaction row; `amount` is in minor currency units. */
  datatype Transaction = Transaction(
    id: int,
    accountId: int,
    kind: Kind,
    amount: int,
    category: string,
    date: Date,
    description: string)

  /** An account row; `balance` is the stored base balance, absent when the column is empty. */
  datatype Account = Account(id: int, name: string, accountType: string, balance: Option<int>)


  function AccountOf(t: Transaction): int { t.accountId }

  function CategoryOf(t: Transaction): string { t.category }

  function DateOf(t: Transaction): Date { t.date }

  function AmountOf(t: Transaction): int { t.amount }

  predicate IsExpense(t: Transaction) { t.kind == Expense }

  /** The amount of an income transaction, 0 for every other kind. */
  function IncomeAmount(t: Transaction): int { if t.kind == Income then t.amount else 0 }

  /** The amount of an expense transaction, 0 for every other kind. */
  function ExpenseAmount(t: Transaction): int { if t.kind == Expense then t.amount else 0 }

  /** One `{ name, value }` entry of a category breakdown. */
  datatype Slice = Slice(name: string, value: int)

  function ValueOf(e: Slice): int { e.value }

  /**
   * The accumulator object of the category reduce: its keys in insertion
   * order (the order `Object.entries` lists them) and the running totals.
   */
  datatype CategoryTotals = CategoryTotals(order: seq<string>, totals: map<string, int>)

  /** Every key is listed once, and the listed keys are the keys of the totals. */
  ghost predicate WellFormed(acc: CategoryTotals)
  {
    Distinct(acc.order) && forall k :: k in acc.totals <==> k in acc.order
  }

  /** One reduce step: `acc[t.category] = (acc[t.category] || 0) + t.amount`. */
  function AddToCategory(acc: CategoryTotals, t: Transaction): CategoryTotals
  {
    var c := t.category;
    var previous := if c in acc.totals then acc.totals[c] else 0;
    CategoryTotals(
      if c in acc.totals then acc.order else acc.order + [c],
      acc.totals[c := previous + t.amount])
  }

  /** The reduce over a list of transactions, from an empty object. */
  function CategoryFold(s: seq<Transaction>): CategoryTotals
  {
    if s == [] then CategoryTotals([], map[])
    else AddToCategory(CategoryFold(s[..|s| - 1]), s[|s| - 1])
  }

  /** The reduce keeps every category once, and lists exactly the categories it has a total for. */
  lemma {:induction false} CategoryFoldWellFormed(s: seq<Transaction>)
    ensures WellFormed(CategoryFold(s))
  {
    if s != [] {
      CategoryFoldWellFormed(s[..|s| - 1]);
    }
  }

  /**
   * One step of the reduce written as updates of the key list and the
   * totals: the key is appended when new, and its total is increased.
   */
  lemma CategoryFoldStep(s: seq<Transaction>, k: nat, order: seq<string>, totals: map<string, int>,
                         order': seq<string>, totals': map<string, int>)
    requires k < |s| && CategoryTotals(order, totals) == CategoryFold(s[..k])
    requires var c := s[k].category;
      && order' == (if c in totals then order else order + [c])
      && totals' == totals[c := (if c in totals then totals[c] else 0) + s[k].amount]
    ensures CategoryTotals(order', totals') == CategoryFold(s[..k + 1])
  {
    assert s[..k + 1][..k] == s[..k];
  }

  /** `Object.entries(acc).map(([name, value]) => ({ name, value }))` for the listed keys. */
  function EntriesOf(keys: seq<string>, totals: map<string, int>): (r: seq<Slice>)
    requires forall k :: k in keys ==> k in totals
    ensures |r| == |keys|
    ensures forall i :: 0 <= i < |r| ==> r[i] == Slice(keys[i], totals[keys[i]])
  {
    if keys == [] then [] else EntriesOf(keys[..|keys| - 1], totals) + [Slice(keys[|keys| - 1], totals[keys[|keys| - 1]])]
  }

  /** Expense totals per category, as `getCategorySpending` and `pieData` compute them. */
  function CategorySpending(txns: seq<Transaction>): seq<Slice>
  {
    var acc := CategoryFold(Filter(txns, IsExpense));
    CategoryFoldWellFormed(Filter(txns, IsExpense));
    EntriesOf(acc.order, acc.totals)
  }

  /**
   * The fold lists exactly the categories that occur, and its total for a
   * category is the sum of the amounts with that category (0 for a category
   * that does not occur).
   */
  lemma {:induction false} CategoryFoldSums(s: seq<Transaction>)
    ensures forall k :: k in CategoryFold(s).order <==> exists i :: 0 <= i < |s| && s[i].category == k
    ensures forall k :: SumKey(s, CategoryOf, k, AmountOf)
                        == if k in CategoryFold(s).totals then CategoryFold(s).totals[k] else 0
  {
    if s != [] {
      var s', t := s[..|s| - 1], s[|s| - 1];
      CategoryFoldSums(s');
      CategoryFoldWellFormed(s');
      forall k
        ensures k in CategoryFold(s).order <==> exists i :: 0 <= i < |s| && s[i].category == k
      {
        if k in CategoryFold(s').order {
          var i :| 0 <= i < |s'| && s'[i].category == k;
          assert s[i] == s'[i];
        }
        if exists i :: 0 <= i < |s| && s[i].category == k {
          var i :| 0 <= i < |s| && s[i].category == k;
          if i < |s'| {
            assert s'[i] == s[i];
          }
        }
      }
    }
  }

  /** Summing the entries' values adds up the per-category sums of the listed keys. */
  lemma {:induction false} EntriesSum(s: seq<Transaction>, keys: seq<string>, totals: map<string, int>)
    requires forall k :: k in keys ==> k in totals && totals[k] == SumKey(s, CategoryOf, k, AmountOf)
    ensures Sum(EntriesOf(keys, totals), ValueOf) == SumByKeys(s, keys, CategoryOf, AmountOf)
  {
    if keys != [] {
      EntriesSum(s, keys[..|keys| - 1], totals);
      var r := EntriesOf(keys, totals);
      assert r[..|r| - 1] == EntriesOf(keys[..|keys| - 1], totals);
    }
  }

  /** No name occurs twice in the category breakdown. */
  lemma SpendingNamesDistinct(txns: seq<Transaction>)
    ensures var r := CategorySpending(txns);
      forall i, j :: 0 <= i < j < |r| ==> r[i].name != r[j].name
  {
    CategoryFoldWellFormed(Filter(txns, IsExpense));
  }

  /** Every name in the category breakdown is the category of some expense. */
  lemma SpendingNamesAreExpenseCategories(txns: seq<Transaction>)
    ensures var r := CategorySpending(txns);
      forall i :: 0 <= i < |r| ==>
        exists j :: 0 <= j < |txns| && txns[j].kind == Expense && txns[j].category == r[i].name
  {
    var expenses := Filter(txns, IsExpense);
    var acc := CategoryFold(expenses);
    var r := CategorySpending(txns);
    CategoryFoldSums(expenses);
    CategoryFoldWellFormed(expenses);
    forall i | 0 <= i < |r|
      ensures exists j :: 0 <= j < |txns| && txns[j].kind == Expense && txns[j].category == r[i].name
    {
      assert acc.order[i] in acc.order;
      var e :| 0 <= e < |expenses| && expenses[e].category == acc.order[i];
      assert expenses[e] in txns;
      var j :| 0 <= j < |txns| && txns[j] == expenses[e];
    }
  }

  /** The category of every expense is named in the category breakdown. */
  lemma ExpenseCategoriesAreNamed(txns: seq<Transaction>)
    ensures var r := CategorySpending(txns);
      forall j :: 0 <= j < |txns| && txns[j].kind == Expense ==>
        exists i :: 0 <= i < |r| && r[i].name == txns[j].category
  {
    var expenses := Filter(txns, IsExpense);
    var acc := CategoryFold(expenses);
    var r := CategorySpending(txns);
    CategoryFoldSums(expenses);
    CategoryFoldWellFormed(expenses);
    forall j | 0 <= j < |txns| && txns[j].kind == Expense
      ensures exists i :: 0 <= i < |r| && r[i].name == txns[j].category
    {
      assert IsExpense(txns[j]);
      var e :| 0 <= e < |expenses| && expenses[e] == txns[j];
      assert txns[j].category in acc.order;
      var i :| 0 <= i < |acc.order| && acc.order[i] == txns[j].category;
      assert r[i].name == txns[j].category;
    }
  }

  /**
   * The category breakdown has one entry per distinct expense category:
   * no name twice, every name an expense category, every expense category
   * named.
   */
  lemma CategorySpendingNames(txns: seq<Transaction>)
    ensures var r := CategorySpending(txns);
      && (forall i, j :: 0 <= i < j < |r| ==> r[i].name != r[j].name)
      && (forall i :: 0 <= i < |r| ==>
            exists j :: 0 <= j < |txns| && txns[j].kind == Expense && txns[j].category == r[i].name)
      && (forall j :: 0 <= j < |txns| && txns[j].kind == Expense ==>
            exists i :: 0 <= i < |r| && r[i].name == txns[j].category)
  {
    SpendingNamesDistinct(txns);
    SpendingNamesAreExpenseCategories(txns);
    ExpenseCategoriesAreNamed(txns);
  }

  /**
   * An entry's value is the sum of that category's expense amounts; income
   * and other kinds contribute nothing, so the values add up to the sum of
   * all expense amounts.
   */
  lemma CategorySpendingValues(txns: seq<Transaction>)
    ensures var r := CategorySpending(txns);
      && (forall i :: 0 <= i < |r| ==> r[i].value == SumKey(txns, CategoryOf, r[i].name, ExpenseAmount))
      && Sum(r, ValueOf) == Sum(txns, ExpenseAmount)
  {
    var expenses := Filter(txns, IsExpense);
    var acc := CategoryFold(expenses);
    var r := CategorySpending(txns);
    CategoryFoldSums(expenses);
    CategoryFoldWellFormed(expenses);
    forall i | 0 <= i < |r|
      ensures r[i].value == SumKey(txns, CategoryOf, r[i].name, ExpenseAmount)
    {
      SumKeyFilter(txns, IsExpense, CategoryOf, r[i].name, AmountOf, ExpenseAmount);
    }
    forall k | k in acc.order
      ensures k in acc.totals && acc.totals[k] == SumKey(expenses, CategoryOf, k, AmountOf)
    {
    }
    EntriesSum(expenses, acc.order, acc.totals);
    forall x | x in expenses
      ensures CategoryOf(x) in acc.order || AmountOf(x) == 0
    {
      var e :| 0 <= e < |expenses| && expenses[e] == x;
    }
    SumOverKeys(expenses, acc.order, CategoryOf, AmountOf);
    SumFilter(txns, IsExpense, AmountOf, ExpenseAmount);
  }
}
