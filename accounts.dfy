/**
 * The accounts screen: the style looked up for an account type, the
 * "last updated" caption, the asset/liability classification, an
 * account's current balance and the net-worth card totals.
 */
module Accounts {
  import opened Wrappers
  import opened Calendar
  import opened Sums
  import opened Text
  import opened Ledger

  /** The card decoration of an account type. */
  datatype AccountStyle = AccountStyle(icon: string, gradient: string)

  /** The account types the add and edit forms offer, with their card styles. */
  const AccountTypes: map<string, AccountStyle> := map[
    "Checking" := AccountStyle("\U{1F4B3}", "from-blue-500 to-blue-300"),
    "Savings" := AccountStyle("\U{1F3E6}", "from-green-500 to-green-300"),
    "Credit Card" := AccountStyle("\U{1F4B3}", "from-orange-500 to-yellow-300"),
    "Investment" := AccountStyle("\U{1F4C8}", "from-purple-500 to-purple-300"),
    "Cash" := AccountStyle("\U{1F4B5}", "from-pink-500 to-pink-300"),
    "Other" := AccountStyle("\U{1F4BC}", "from-gray-500 to-gray-300")
  ]

  /** The style of a known account type, and the "Other" style for any other type. */
  function GetAccountStyle(accountType: string): (style: AccountStyle)
    ensures style in AccountTypes.Values
    ensures accountType in AccountTypes ==> style == AccountTypes[accountType]
    ensures accountType !in AccountTypes ==> style == AccountTypes["Other"]
  {
    if accountType in AccountTypes then AccountTypes[accountType] else AccountTypes["Other"]
  }

  /** The account types counted as liabilities. */
  const LiabilityTypes: seq<string> := ["Credit Card", "Loan", "Liability"]

  predicate IsLiability(a: Account)
  {
    a.accountType in LiabilityTypes
  }

  predicate IsAsset(a: Account)
  {
    !IsLiability(a)
  }

  /**
   * Of the types the forms offer only "Credit Card" is a liability; the
   * other two liability types can only come from stored rows, and their
   * cards get the "Other" style.
   */
  lemma LiabilityAmongOfferedTypes(a: Account)
    ensures IsLiability(a) <==> a.accountType in {"Credit Card", "Loan", "Liability"}
    ensures a.accountType in AccountTypes ==> (IsLiability(a) <==> a.accountType == "Credit Card")
    ensures a.accountType in {"Loan", "Liability"} ==> GetAccountStyle(a.accountType) == AccountTypes["Other"]
  {
  }

  // ---- Last-updated caption ----

  const Prefix: string := "Last Updated: "

  /** Whole days from `updated` to `now`; negative for a date in the future. */
  function DaysAgo(updated: Date, now: Date): int
  {
    Ordinal(now) - Ordinal(updated)
  }

  /** A date as zero-padded day, zero-padded month and year, joined by dashes. */
  function DayMonthYear(d: Date): string
  {
    PadTwo(d.day) + "-" + PadTwo(d.month) + "-" + IntToString(d.year)
  }

  /** Reads a "dd-mm-yyyy" text back into a date. */
  function ParseDayMonthYear(s: string): Option<Date>
  {
    if |s| >= 7 && s[2] == '-' && s[5] == '-'
       && AllDigits(s[..2]) && AllDigits(s[3..5]) && AllDigits(s[6..])
    then Some(Date(DigitsValue(s[6..]), DigitsValue(s[3..5]), DigitsValue(s[..2])))
    else None
  }

  /** The caption under an account card. */
  function FormatLastUpdated(updated: Option<Date>, now: Date): (s: string)
    ensures updated.None? <==> s == "-"
    ensures updated.Some? ==> |s| > |Prefix| && s[..|Prefix|] == Prefix
  {
    match updated
    case None => "-"
    case Some(d) =>
      var diff := DaysAgo(d, now);
      if diff == 0 then Prefix + "Today"
      else if diff == 1 then Prefix + "Yesterday"
      else if diff < 7 then Prefix + IntToString(diff) + " days ago"
      else if diff < 14 then Prefix + "1 week ago"
      else Prefix + DayMonthYear(d)
  }

  /**
   * The relative captions: "Today", "Yesterday", the day count for fewer
   * than seven days (a date in the future gives a negative count), and
   * "1 week ago" up to thirteen days.
   */
  lemma FormatLastUpdatedRecent(d: Date, now: Date)
    ensures var diff := DaysAgo(d, now);
      var s := FormatLastUpdated(Some(d), now);
      && (diff == 0 ==> s == Prefix + "Today")
      && (diff == 1 ==> s == Prefix + "Yesterday")
      && (2 <= diff < 7 ==> s == Prefix + [DigitChar(diff)] + " days ago")
      && (diff < 0 ==> s == Prefix + "-" + Decimal(-diff) + " days ago")
      && (7 <= diff < 14 ==> s == Prefix + "1 week ago")
  {
  }

  /**
   * From fourteen days on the caption is the date itself, and reading the
   * caption back gives that date: distinct dates get distinct captions.
   */
  lemma FormatLastUpdatedDate(d: Date, now: Date)
    requires Valid(d) && d.year >= 0 && DaysAgo(d, now) >= 14
    ensures var s := FormatLastUpdated(Some(d), now);
      ParseDayMonthYear(s[|Prefix|..]) == Some(d)
  {
    var s := FormatLastUpdated(Some(d), now);
    var t := s[|Prefix|..];
    var dd, mm, yy := PadTwo(d.day), PadTwo(d.month), Decimal(d.year);
    assert t == dd + "-" + mm + "-" + yy;
    assert t[..2] == dd && t[3..5] == mm && t[6..] == yy;
    PadTwoRoundTrip(d.day);
    PadTwoRoundTrip(d.month);
    DecimalRoundTrip(d.year);
  }

  // ---- Balances and the net-worth card ----

  /** The stored base balance, 0 when absent. */
  function BaseBalance(a: Account): int
  {
    match a.balance
    case None => 0
    case Some(b) => b
  }

  /** The signed effect of a transaction on its account: income adds, expense subtracts, other kinds nothing. */
  function SignedAmount(t: Transaction): int
  {
    if t.kind == Income then t.amount
    else if t.kind == Expense then -t.amount
    else 0
  }

  /** Selects the transactions booked on account `id`. */
  function OnAccount(id: int): Transaction -> bool
  {
    (t: Transaction) => t.accountId == id
  }

  /** The current balance of an account: its base balance plus its own transactions, folded in order. */
  function Balance(a: Account, txns: seq<Transaction>): int
  {
    BaseBalance(a) + Sum(Filter(txns, OnAccount(a.id)), SignedAmount)
  }

  /**
   * The balance is the base balance plus the income amounts minus the
   * expense amounts of the account's own transactions; other kinds and
   * other accounts' transactions do not count.
   */
  lemma BalanceSpec(a: Account, txns: seq<Transaction>)
    ensures Balance(a, txns)
         == BaseBalance(a) + SumKey(txns, AccountOf, a.id, IncomeAmount) - SumKey(txns, AccountOf, a.id, ExpenseAmount)
  {
    SumFilterByKey(txns, OnAccount(a.id), AccountOf, a.id, SignedAmount);
    SumKeyDifference(txns, AccountOf, a.id, SignedAmount, IncomeAmount, ExpenseAmount);
  }

  /** Inserting (or, read backwards, removing) other accounts' transactions anywhere leaves a balance unchanged. */
  lemma BalanceIgnoresOtherAccounts(a: Account, before: seq<Transaction>, others: seq<Transaction>, after: seq<Transaction>)
    requires forall i :: 0 <= i < |others| ==> others[i].accountId != a.id
    ensures Balance(a, before + others + after) == Balance(a, before + after)
  {
    BalanceSpec(a, before + others + after);
    BalanceSpec(a, before + after);
    SumKeyAppend(before + others, after, AccountOf, a.id, IncomeAmount);
    SumKeyAppend(before, others, AccountOf, a.id, IncomeAmount);
    SumKeyAppend(before, after, AccountOf, a.id, IncomeAmount);
    SumKeyAppend(before + others, after, AccountOf, a.id, ExpenseAmount);
    SumKeyAppend(before, others, AccountOf, a.id, ExpenseAmount);
    SumKeyAppend(before, after, AccountOf, a.id, ExpenseAmount);
    SumKeyOfOthers(others, AccountOf, a.id, IncomeAmount);
    SumKeyOfOthers(others, AccountOf, a.id, ExpenseAmount);
  }

  /** An account's balance against a fixed transaction list. */
  function BalanceIn(txns: seq<Transaction>): Account -> int
  {
    (a: Account) => Balance(a, txns)
  }

  function TotalAssets(accounts: seq<Account>, txns: seq<Transaction>): int
  {
    Sum(Filter(accounts, IsAsset), BalanceIn(txns))
  }

  function TotalLiabilities(accounts: seq<Account>, txns: seq<Transaction>): int
  {
    Sum(Filter(accounts, IsLiability), BalanceIn(txns))
  }

  function NetWorth(accounts: seq<Account>, txns: seq<Transaction>): int
  {
    TotalAssets(accounts, txns) - TotalLiabilities(accounts, txns)
  }

  /** An account's contribution to net worth: its balance, negated for a liability. */
  function WorthOf(txns: seq<Transaction>): Account -> int
  {
    (a: Account) => if IsLiability(a) then -Balance(a, txns) else Balance(a, txns)
  }

  /**
   * Every account is in exactly one of the two groups, so assets plus
   * liabilities add up to all balances, and net worth counts each asset's
   * balance once positively and each liability's once negatively.
   */
  lemma NetWorthPartition(accounts: seq<Account>, txns: seq<Transaction>)
    ensures TotalAssets(accounts, txns) + TotalLiabilities(accounts, txns) == Sum(accounts, BalanceIn(txns))
    ensures NetWorth(accounts, txns) == Sum(accounts, WorthOf(txns))
  {
    var f := BalanceIn(txns);
    SumPartition(accounts, IsAsset, IsLiability, f);
    var g: Account -> int := a => if IsAsset(a) then f(a) else 0;
    var h: Account -> int := a => if IsLiability(a) then f(a) else 0;
    SumFilter(accounts, IsAsset, f, g);
    SumFilter(accounts, IsLiability, f, h);
    SumDifference(accounts, WorthOf(txns), g, h);
  }
}
