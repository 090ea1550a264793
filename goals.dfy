/**
 * The goals screen: the values a goal card derives from a goal row —
 * saved and target amounts with their defaults, the clamped progress
 * percentage, the remaining amount, the "reached" flag, the progress ring
 * colour and caption, and the category icon.
 */
module Goals {
  import opened Wrappers
  import opened Calendar
  import opened Text

  /** A goal row; the amount and category columns may be empty. */
  datatype Goal = Goal(
    id: int,
    name: string,
    savedAmount: Option<int>,
    targetAmount: Option<int>,
    category: Option<string>,
    targetDate: Option<Date>)

  /** The icon per goal category; the keys, in this order, are also the categories the forms offer. */
  const GoalIcons: map<string, string> := map[
    "Vacation" := "\U{1F3D6}\U{FE0F}",
    "Emergency" := "\U{2B50}",
    "Laptop" := "\U{1F4BB}",
    "Car" := "\U{1F697}",
    "House" := "\U{1F3E0}",
    "Education" := "\U{1F393}",
    "Wedding" := "\U{1F48D}",
    "Other" := "\U{1F3AF}"
  ]

  const GoalCategories: seq<string> :=
    ["Vacation", "Emergency", "Laptop", "Car", "House", "Education", "Wedding", "Other"]

  /** The icon shown when the category has no entry. */
  const FallbackIcon: string := "\U{1F3AF}"

  /** The saved amount, 0 when the column is empty. */
  function Saved(g: Goal): (saved: int)
    ensures g.savedAmount.None? ==> saved == 0
    ensures g.savedAmount.Some? ==> saved == g.savedAmount.value
  {
    if g.savedAmount.Some? then g.savedAmount.value else 0
  }

  /** The target amount, 1 when the column is empty or zero, so it is never zero. */
  function Target(g: Goal): (target: int)
    ensures target != 0
    ensures g.targetAmount.Some? && g.targetAmount.value != 0 ==> target == g.targetAmount.value
    ensures g.targetAmount.None? || g.targetAmount.value == 0 ==> target == 1
  {
    if g.targetAmount.Some? && g.targetAmount.value != 0 then g.targetAmount.value else 1
  }

  /** The goal is reached once the saved amount is at least the target. */
  predicate Over(g: Goal)
  {
    Saved(g) >= Target(g)
  }

  /** What is still to save; together with the saved amount it makes up the target. */
  function Remaining(g: Goal): (remaining: int)
    ensures Saved(g) + remaining == Target(g)
    ensures remaining > 0 <==> !Over(g)
  {
    Target(g) - Saved(g)
  }

  /** The unclamped percentage saved / target * 100. */
  function Ratio(g: Goal): (ratio: real)
    ensures ratio * Target(g) as real == Saved(g) as real * 100.0
  {
    Saved(g) as real / Target(g) as real * 100.0
  }

  /** The progress percentage, capped at 100. */
  function Progress(g: Goal): (p: real)
    ensures p <= 100.0
    ensures p == 100.0 || p * Target(g) as real == Saved(g) as real * 100.0
  {
    var ratio := Ratio(g);
    if ratio < 100.0 then ratio else 100.0
  }

  /** Multiplying by a positive factor keeps the order of two reals. */
  lemma ScaleOrder(a: real, b: real, t: real)
    requires t > 0.0
    ensures a < b <==> a * t < b * t
  {
  }

  /** With a positive target, the ring is full exactly when the goal is reached. */
  lemma ProgressFullIffOver(g: Goal)
    requires Target(g) > 0
    ensures Progress(g) == 100.0 <==> Over(g)
    ensures Saved(g) >= 0 ==> 0.0 <= Progress(g)
  {
    var t, s, ratio := Target(g) as real, Saved(g) as real, Ratio(g);
    ScaleOrder(ratio, 100.0, t);
    ScaleOrder(ratio, 0.0, t);
    assert Over(g) <==> s * 100.0 >= t * 100.0;
  }

  /** The remaining column: "Goal reached!" once reached, the positive amount still to save otherwise. */
  datatype RemainingCaption = GoalReached | StillToSave(amount: int)

  function RemainingText(g: Goal): (c: RemainingCaption)
    ensures c == GoalReached <==> Over(g)
    ensures c.StillToSave? ==> c.amount > 0 && Saved(g) + c.amount == Target(g)
  {
    if Over(g) then GoalReached else StillToSave(Remaining(g))
  }

  const Green: string := "#22c55e"
  const Yellow: string := "#fbbf24"
  const Indigo: string := "#6366f1"

  /** The ring colour: green once reached, yellow above 80 percent, indigo otherwise. */
  function PathColor(g: Goal): (colour: string)
    ensures colour in {Green, Yellow, Indigo}
  {
    if Over(g) then Green else if Progress(g) > 80.0 then Yellow else Indigo
  }

  /**
   * With a positive target the colour bands are integer thresholds:
   * green from the target up, yellow strictly between 80 percent of the
   * target and the target, indigo up to 80 percent.
   */
  lemma PathColorBands(g: Goal)
    requires Target(g) > 0
    ensures PathColor(g) == Green <==> Saved(g) >= Target(g)
    ensures PathColor(g) == Yellow <==> Saved(g) < Target(g) && Saved(g) * 100 > Target(g) * 80
    ensures PathColor(g) == Indigo <==> Saved(g) * 100 <= Target(g) * 80
  {
    assert Green[1] != Yellow[1] && Green[1] != Indigo[1] && Yellow[1] != Indigo[1];
    ProgressFullIffOver(g);
    if !Over(g) {
      BandOfPercentage(Progress(g), Saved(g), Target(g));
    }
  }

  /** A percentage of a positive target is above 80 exactly when 100 times the amount exceeds 80 times the target. */
  lemma BandOfPercentage(p: real, saved: int, target: int)
    requires target > 0 && p * target as real == saved as real * 100.0
    ensures p > 80.0 <==> saved * 100 > target * 80
  {
    ScaleOrder(80.0, p, target as real);
    assert 80.0 * target as real < p * target as real <==> saved * 100 > target * 80;
  }

  /** `Math.round`: the nearest integer, halves rounded up. */
  function RoundHalfUp(x: real): (n: int)
    ensures n as real - 0.5 <= x < n as real + 0.5
  {
    (x + 0.5).Floor
  }

  /** The caption in the ring: the rounded progress followed by "%". */
  function ProgressText(g: Goal): (text: string)
    ensures |text| >= 2 && text[|text| - 1] == '%'
  {
    IntToString(RoundHalfUp(Progress(g))) + "%"
  }

  /**
   * For a positive target and a non-negative saved amount the caption is
   * one to three digits followed by "%", and the digits read back as a
   * whole percentage between 0 and 100 within half a point of the progress.
   */
  lemma ProgressTextReadsBack(g: Goal)
    requires Target(g) > 0 && Saved(g) >= 0
    ensures var text := ProgressText(g);
      var digits := text[..|text| - 1];
      && 2 <= |text| <= 4
      && AllDigits(digits)
      && 0 <= DigitsValue(digits) <= 100
      && DigitsValue(digits) as real - 0.5 <= Progress(g) < DigitsValue(digits) as real + 0.5
  {
    ProgressFullIffOver(g);
    var n := RoundHalfUp(Progress(g));
    assert 0 <= n <= 100;
    var text := ProgressText(g);
    assert text[..|text| - 1] == Decimal(n);
    DecimalRoundTrip(n);
    assert |Decimal(n)| <= 3 by {
      if n >= 100 {
        assert Decimal(n) == Decimal(n / 10) + [DigitChar(n % 10)];
      }
    }
  }

  /** The icon for a category: its table entry, or the target icon for a missing or unknown category. */
  function Icon(category: Option<string>): (icon: string)
    ensures category.Some? && category.value in GoalIcons ==> icon == GoalIcons[category.value]
    ensures category.None? || category.value !in GoalIcons ==> icon == FallbackIcon
  {
    if category.Some? && category.value in GoalIcons then GoalIcons[category.value] else FallbackIcon
  }

  /** Every category the forms offer has its own entry, and an unknown category looks like "Other". */
  lemma IconsCoverOfferedCategories(c: string)
    ensures c in GoalCategories <==> c in GoalIcons
    ensures c !in GoalIcons ==> Icon(Some(c)) == Icon(Some("Other"))
  {
  }

  /** The category badge: shown with the category's text exactly when the category is present and non-empty. */
  function CategoryBadge(g: Goal): (badge: Option<string>)
    ensures badge.Some? <==> g.category.Some? && g.category.value != ""
    ensures badge.Some? ==> badge.value == g.category.value
  {
    if g.category.Some? && g.category.value != "" then Some(g.category.value) else None
  }
}
