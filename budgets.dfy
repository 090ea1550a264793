/**
 * The budgets screen: money spent per category in the current month or
 * week, the overview and per-budget figures, and the list of budgets the
 * screen keeps and patches after a save or a delete.  Store calls are
 * external: their outcome is a parameter.
 */
module Budgets {
  import opened Wrappers
  import opened Calendar
  import opened Sums
  import opened Ledger

  /** A budget row: a spending limit for one category over one period ("monthly" or "weekly"). */
  datatype Budget = Budget(id: int, category: string, amount: int, period: string)

  /** The budget form as submitted; `amount` is `None` when the entry is not a number. */
  datatype BudgetForm = BudgetForm(category: string, amount: Option<int>, period: string)

  // ---- Spending ----

  /** Whether a transaction date falls in the current period: the month of `now`, or its Sunday-to-Saturday week. */
  predicate InPeriod(d: Date, period: string, now: Date)
  {
    if period == "monthly" then d.month == now.month && d.year == now.year
    else if period == "weekly" then
      var startOfWeek := Ordinal(now) - Weekday(Ordinal(now));
      startOfWeek <= Ordinal(d) <= startOfWeek + 6
    else false
  }

  /** The weekly window is the week of `now`, weeks running Sunday to Saturday. */
  lemma WeeklyIsSameWeek(d: Date, now: Date)
    ensures InPeriod(d, "weekly", now) <==> (Ordinal(d) + 6) / 7 == (Ordinal(now) + 6) / 7
  {
    var n, m := Ordinal(now), Ordinal(d);
    var q := (n + 6) / 7;
    assert n - Weekday(n) == 7 * q - 6;
    if 7 * q - 6 <= m <= 7 * q {
      assert (m + 6) / 7 == q;
    } else if m < 7 * q - 6 {
      assert (m + 6) / 7 < q;
    } else {
      assert (m + 6) / 7 > q;
    }
  }

  /** Whether a transaction counts towards the spending of a budget. */
  function CountsFor(category: string, period: string, now: Date): Transaction -> bool
  {
    (t: Transaction) => t.kind == Expense && t.category == category && InPeriod(t.date, period, now)
  }

  /** The money spent on `category` in the current `period`. */
  function SpentForCategory(txns: seq<Transaction>, category: string, period: string, now: Date): int
  {
    Sum(Filter(txns, CountsFor(category, period, now)), AmountOf)
  }

  /**
   * A transaction adds its amount to the spending exactly when it is an
   * expense of that category within the period, wherever it stands in the
   * list; so an empty list spends 0 and only those transactions count.
   */
  lemma {:induction false} SpentForCategoryInsert(before: seq<Transaction>, t: Transaction, after: seq<Transaction>,
                                                  category: string, period: string, now: Date)
    ensures SpentForCategory(before + [t] + after, category, period, now)
         == SpentForCategory(before + after, category, period, now)
            + (if t.kind == Expense && t.category == category && InPeriod(t.date, period, now) then t.amount else 0)
  {
    var p := CountsFor(category, period, now);
    FilterAppend(before + [t], after, p);
    FilterAppend(before, [t], p);
    FilterAppend(before, after, p);
    assert Filter([t], p) == if p(t) then [t] else [] by {
      assert [t][..0] == [];
    }
    SumAppend(Filter(before, p) + Filter([t], p), Filter(after, p), AmountOf);
    SumAppend(Filter(before, p), Filter([t], p), AmountOf);
    SumAppend(Filter(before, p), Filter(after, p), AmountOf);
    assert Sum([t], AmountOf) == t.amount by {
      assert [t][..0] == [];
    }
  }

  /** A period other than "monthly" and "weekly" spends nothing. */
  lemma SpentOtherPeriod(txns: seq<Transaction>, category: string, period: string, now: Date)
    requires period != "monthly" && period != "weekly"
    ensures SpentForCategory(txns, category, period, now) == 0
  {
    FilterNone(txns, CountsFor(category, period, now));
  }

  // ---- Overview and per-budget figures ----

  function AmountOfBudget(b: Budget): int { b.amount }

  function SpentOn(txns: seq<Transaction>, now: Date): Budget -> int
  {
    (b: Budget) => SpentForCategory(txns, b.category, b.period, now)
  }

  function RemainingOn(txns: seq<Transaction>, now: Date): Budget -> int
  {
    (b: Budget) => b.amount - SpentForCategory(txns, b.category, b.period, now)
  }

  /** The overview: total budget, total spent, percentage used and remaining. */
  datatype Overview = Overview(totalBudget: int, totalSpent: int, percentUsed: real, totalRemaining: int)

  function GetOverview(budgets: seq<Budget>, txns: seq<Transaction>, now: Date): (o: Overview)
    ensures o.totalBudget == Sum(budgets, AmountOfBudget)
    ensures o.totalSpent == Sum(budgets, SpentOn(txns, now))
    ensures o.totalRemaining == o.totalBudget - o.totalSpent
    ensures o.totalBudget == 0 ==> o.percentUsed == 0.0
    ensures o.totalBudget != 0 ==> o.percentUsed * o.totalBudget as real == o.totalSpent as real * 100.0
  {
    var totalBudget := Sum(budgets, AmountOfBudget);
    var totalSpent := Sum(budgets, SpentOn(txns, now));
    var percentUsed := if totalBudget != 0 then totalSpent as real / totalBudget as real * 100.0 else 0.0;
    Overview(totalBudget, totalSpent, percentUsed, totalBudget - totalSpent)
  }

  /** The overall remaining amount is the sum of every budget's own remaining amount. */
  lemma OverviewRemaining(budgets: seq<Budget>, txns: seq<Transaction>, now: Date)
    ensures GetOverview(budgets, txns, now).totalRemaining == Sum(budgets, RemainingOn(txns, now))
  {
    SumDifference(budgets, RemainingOn(txns, now), AmountOfBudget, SpentOn(txns, now));
  }

  /** `Math.min(x, 100)`. */
  function Clamp100(x: real): (r: real)
    ensures r <= 100.0 && (r == x || r == 100.0)
    ensures x <= 100.0 ==> r == x
  {
    if x < 100.0 then x else 100.0
  }

  /** The overview bar fills `min(percentUsed, 100)` percent. */
  function OverviewBarWidth(o: Overview): (w: real)
    ensures w <= 100.0
    ensures o.percentUsed <= 100.0 ==> w == o.percentUsed
  {
    Clamp100(o.percentUsed)
  }

  /** What one budget card shows. */
  datatype BudgetCard = BudgetCard(spent: int, percent: real, remaining: int, over: bool, barColour: string, barWidth: real)

  function GetBudgetCard(b: Budget, txns: seq<Transaction>, now: Date): (c: BudgetCard)
    ensures c.spent == SpentForCategory(txns, b.category, b.period, now)
    ensures c.remaining == b.amount - c.spent
    ensures c.over <==> c.spent > b.amount
    ensures b.amount != 0 ==> c.percent * b.amount as real == c.spent as real * 100.0
    ensures b.amount == 0 ==> c.percent == 0.0
    ensures c.over <==> c.remaining < 0
    ensures c.barColour == "bg-red-500" <==> c.over
    ensures c.barColour == "bg-yellow-500" <==> !c.over && c.percent > 75.0
    ensures c.barColour == "bg-green-500" <==> !c.over && c.percent <= 75.0
    ensures c.barWidth <= 100.0 && (c.percent <= 100.0 ==> c.barWidth == c.percent)
  {
    var spent := SpentForCategory(txns, b.category, b.period, now);
    var percent := if b.amount != 0 then spent as real / b.amount as real * 100.0 else 0.0;
    var remaining := b.amount - spent;
    var over := spent > b.amount;
    var colour := if over then "bg-red-500" else if percent > 75.0 then "bg-yellow-500" else "bg-green-500";
    BudgetCard(spent, percent, remaining, over, colour, Clamp100(percent))
  }

  /** For a positive budget, being over is the same as using more than 100 percent. */
  lemma OverMeansPastHundred(b: Budget, txns: seq<Transaction>, now: Date)
    requires b.amount > 0
    ensures var c := GetBudgetCard(b, txns, now);
      c.over <==> c.percent > 100.0
  {
    var c := GetBudgetCard(b, txns, now);
    assert c.over <==> c.spent > b.amount;
    assert c.percent * b.amount as real == c.spent as real * 100.0;
    PercentPastHundred(c.percent, c.spent, b.amount);
  }

  /** A percentage of a positive amount exceeds 100 exactly when the part exceeds the amount. */
  lemma PercentPastHundred(p: real, part: int, amount: int)
    requires amount > 0 && p * amount as real == part as real * 100.0
    ensures p > 100.0 <==> part > amount
  {
    var a := amount as real;
    assert p * a - 100.0 * a == (p - 100.0) * a;
    if p > 100.0 {
      assert (p - 100.0) * a > 0.0;
    } else {
      assert (100.0 - p) * a >= 0.0;
    }
  }

  // ---- Validation and list maintenance ----

  /** The form is usable: a category, a period and a positive number. */
  predicate ValidForm(form: BudgetForm)
  {
    form.category != "" && form.period != "" && form.amount.Some? && form.amount.value > 0
  }

  /** A budget other than the one being edited that already has the form's category and period. */
  predicate Clashes(b: Budget, form: BudgetForm, editing: Option<Budget>)
  {
    b.category == form.category && b.period == form.period && (editing.None? || b.id != editing.value.id)
  }

  /** The first clashing budget, if any. */
  function FindDuplicate(budgets: seq<Budget>, form: BudgetForm, editing: Option<Budget>): (r: Option<Budget>)
    ensures r.None? <==> forall i :: 0 <= i < |budgets| ==> !Clashes(budgets[i], form, editing)
    ensures r.Some? ==> exists i :: 0 <= i < |budgets| && budgets[i] == r.value && Clashes(r.value, form, editing)
                                    && forall j :: 0 <= j < i ==> !Clashes(budgets[j], form, editing)
  {
    if budgets == [] then None
    else if Clashes(budgets[0], form, editing) then Some(budgets[0])
    else
      var r := FindDuplicate(budgets[1..], form, editing);
      assert forall i :: 0 < i < |budgets| ==> budgets[i] == budgets[1..][i - 1];
      if r.Some? then
        ghost var i :| 0 <= i < |budgets[1..]| && budgets[1..][i] == r.value && Clashes(r.value, form, editing)
                       && forall j :: 0 <= j < i ==> !Clashes(budgets[1..][j], form, editing);
        assert budgets[i + 1] == r.value;
        r
      else r
  }

  /** Every budget with id `id` takes the form's category, amount and period; the others stay as they are. */
  function ReplaceById(budgets: seq<Budget>, id: int, category: string, amount: int, period: string): (r: seq<Budget>)
    ensures |r| == |budgets|
    ensures forall i :: 0 <= i < |r| ==>
      r[i] == if budgets[i].id == id then budgets[i].(category := category, amount := amount, period := period)
              else budgets[i]
  {
    if budgets == [] then []
    else
      var b := budgets[|budgets| - 1];
      ReplaceById(budgets[..|budgets| - 1], id, category, amount, period)
        + [if b.id == id then b.(category := category, amount := amount, period := period) else b]
  }

  function IdIsNot(id: int): Budget -> bool
  {
    (b: Budget) => b.id != id
  }

  /** The budgets without those with id `id`, in their order. */
  function RemoveById(budgets: seq<Budget>, id: int): seq<Budget>
  {
    Filter(budgets, IdIsNot(id))
  }

  /**
   * Removal keeps every other budget, in order, and drops every budget
   * with that id: it distributes over concatenation, keeps a single budget
   * exactly when its id differs, and leaves a list without that id alone.
   */
  lemma RemoveByIdSpec(a: seq<Budget>, b: seq<Budget>, x: Budget, id: int)
    ensures RemoveById(a + b, id) == RemoveById(a, id) + RemoveById(b, id)
    ensures RemoveById([x], id) == if x.id == id then [] else [x]
    ensures (forall i :: 0 <= i < |a| ==> a[i].id != id) ==> RemoveById(a, id) == a
    ensures forall i :: 0 <= i < |RemoveById(a, id)| ==> RemoveById(a, id)[i].id != id
  {
    FilterAppend(a, b, IdIsNot(id));
    assert [x][..0] == [];
    if forall i :: 0 <= i < |a| ==> a[i].id != id {
      FilterAll(a, id);
    }
  }

  lemma {:induction false} FilterAll(a: seq<Budget>, id: int)
    requires forall i :: 0 <= i < |a| ==> a[i].id != id
    ensures RemoveById(a, id) == a
  {
    if a != [] {
      FilterAll(a[..|a| - 1], id);
    }
  }

  /** No two budgets share a category and a period. */
  predicate UniqueKeys(budgets: seq<Budget>)
  {
    forall i, j :: 0 <= i < j < |budgets| ==>
      !(budgets[i].category == budgets[j].category && budgets[i].period == budgets[j].period)
  }

  /** No two budgets share an id. */
  predicate UniqueIds(budgets: seq<Budget>)
  {
    forall i, j :: 0 <= i < j < |budgets| ==> budgets[i].id != budgets[j].id
  }

  /** `id` is not the id of any budget in the list. */
  predicate FreshId(budgets: seq<Budget>, id: int)
  {
    forall i :: 0 <= i < |budgets| ==> budgets[i].id != id
  }

  /**
   * The list after a save: unchanged when the form is invalid or clashes,
   * patched in place when editing and the update succeeded, extended by the
   * stored row when adding and the store returned it.
   */
  function Save(budgets: seq<Budget>, editing: Option<Budget>, form: BudgetForm,
                storeOk: bool, returnedId: Option<int>): seq<Budget>
  {
    if !ValidForm(form) || FindDuplicate(budgets, form, editing).Some? || !storeOk then budgets
    else match editing
      case Some(e) => ReplaceById(budgets, e.id, form.category, form.amount.value, form.period)
      case None =>
        match returnedId
        case Some(id) => budgets + [Budget(id, form.category, form.amount.value, form.period)]
        case None => budgets
  }

  /**
   * A save never creates a second budget for a category and period, and
   * never a second budget with one id, provided the store hands out an id
   * not already in the list.
   */
  lemma SavePreservesUniqueness(budgets: seq<Budget>, editing: Option<Budget>, form: BudgetForm,
                                storeOk: bool, returnedId: Option<int>)
    requires UniqueKeys(budgets) && UniqueIds(budgets)
    requires returnedId.Some? ==> FreshId(budgets, returnedId.value)
    ensures var r := Save(budgets, editing, form, storeOk, returnedId);
      UniqueKeys(r) && UniqueIds(r)
  {
    var r := Save(budgets, editing, form, storeOk, returnedId);
    if ValidForm(form) && FindDuplicate(budgets, form, editing).None? && storeOk {
      if editing.Some? {
        var id := editing.value.id;
        forall i, j | 0 <= i < j < |r|
          ensures !(r[i].category == r[j].category && r[i].period == r[j].period)
        {
          assert !Clashes(budgets[i], form, editing) && !Clashes(budgets[j], form, editing);
        }
      }
    }
  }

  /** A delete keeps both invariants. */
  lemma {:induction false} RemovePreservesUniqueness(budgets: seq<Budget>, id: int)
    requires UniqueKeys(budgets) && UniqueIds(budgets)
    ensures UniqueKeys(RemoveById(budgets, id)) && UniqueIds(RemoveById(budgets, id))
  {
    if budgets != [] {
      var init, x := budgets[..|budgets| - 1], budgets[|budgets| - 1];
      RemovePreservesUniqueness(init, id);
      var r0 := RemoveById(init, id);
      forall i | 0 <= i < |r0|
        ensures !(r0[i].category == x.category && r0[i].period == x.period) && r0[i].id != x.id
      {
        assert r0[i] in init;
        var k :| 0 <= k < |init| && init[k] == r0[i];
        assert budgets[k] == r0[i];
      }
    }
  }

  /** What a save did, as the screen can tell. */
  datatype SaveOutcome = InvalidForm | DuplicateFound | Submitted

  /** The budgets screen's list and modal state. */
  class BudgetsScreen {
    var budgets: seq<Budget>
    var transactions: seq<Transaction>
    var modalOpen: bool
    var modalLoading: bool
    var editing: Option<Budget>

    /** The list invariant: no duplicate (category, period) pair and no duplicate id. */
    predicate Consistent()
      reads this
    {
      UniqueKeys(budgets) && UniqueIds(budgets)
    }

    constructor (budgets: seq<Budget>, transactions: seq<Transaction>)
      ensures this.budgets == budgets && this.transactions == transactions
      ensures !modalOpen && !modalLoading && editing == None
    {
      this.budgets := budgets;
      this.transactions := transactions;
      modalOpen := false;
      modalLoading := false;
      editing := None;
    }

    /** Opens the form, to add a budget (`None`) or to edit one. */
    method OpenModal(budget: Option<Budget>)
      modifies this
      ensures editing == budget && modalOpen
      ensures budgets == old(budgets) && transactions == old(transactions) && modalLoading == old(modalLoading)
    {
      editing := budget;
      modalOpen := true;
    }

    method CloseModal()
      modifies this
      ensures editing == None && !modalOpen
      ensures budgets == old(budgets) && transactions == old(transactions) && modalLoading == old(modalLoading)
    {
      editing := None;
      modalOpen := false;
    }

    /**
     * Saves the form.  An invalid or clashing form leaves everything but the
     * loading flag as it was, and the form open.  Otherwise the list is
     * patched or extended when the store call succeeded, and the form is
     * closed either way.
     */
    method HandleSave(form: BudgetForm, storeOk: bool, returnedId: Option<int>) returns (outcome: SaveOutcome)
      modifies this
      ensures budgets == Save(old(budgets), old(editing), form, storeOk, returnedId)
      ensures outcome == InvalidForm <==> !ValidForm(form)
      ensures outcome == DuplicateFound <==> ValidForm(form) && FindDuplicate(old(budgets), form, old(editing)).Some?
      ensures outcome == Submitted ==> !modalOpen && editing == None
      ensures outcome != Submitted ==> modalOpen == old(modalOpen) && editing == old(editing)
      ensures !modalLoading && transactions == old(transactions)
      ensures old(Consistent()) && (returnedId.Some? ==> FreshId(old(budgets), returnedId.value)) ==> Consistent()
    {
      if Consistent() && (returnedId.Some? ==> FreshId(budgets, returnedId.value)) {
        SavePreservesUniqueness(budgets, editing, form, storeOk, returnedId);
      }
      modalLoading := true;
      if !ValidForm(form) {
        modalLoading := false;
        return InvalidForm;
      }
      var duplicate := FindDuplicate(budgets, form, editing);
      if duplicate.Some? {
        modalLoading := false;
        return DuplicateFound;
      }
      var amount := form.amount.value;
      if editing.Some? {
        if storeOk {
          budgets := ReplaceById(budgets, editing.value.id, form.category, amount, form.period);
        }
      } else {
        if storeOk && returnedId.Some? {
          budgets := budgets + [Budget(returnedId.value, form.category, amount, form.period)];
        }
      }
      modalLoading := false;
      CloseModal();
      outcome := Submitted;
    }

    /** Deletes budget `id` when the user confirmed and the store call succeeded. */
    method HandleDelete(id: int, confirmed: bool, storeOk: bool)
      modifies this
      ensures budgets == if confirmed && storeOk then RemoveById(old(budgets), id) else old(budgets)
      ensures transactions == old(transactions) && modalOpen == old(modalOpen)
      ensures modalLoading == old(modalLoading) && editing == old(editing)
      ensures old(Consistent()) ==> Consistent()
    {
      if Consistent() {
        RemovePreservesUniqueness(budgets, id);
      }
      if !confirmed {
        return;
      }
      if storeOk {
        budgets := RemoveById(budgets, id);
      }
    }
  }
}
