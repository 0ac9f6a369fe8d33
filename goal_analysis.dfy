/**
 * The projection table of the goal analysis dialog: for six fixed horizons,
 * the amount saved, the future value of the current amount plus the monthly
 * contribution at 8% a year compounded monthly, the growth percentage and the
 * investment gain.
 */
module GoalAnalysis {
  import opened Numeric
  import opened Wrappers

  const AnnualReturnRate: real := 0.08
  const MonthlyReturnRate: real := AnnualReturnRate / 12.0

  /** An entry of `periods`. */
  datatype Period = Period(labelText: string, months: nat)

  const Periods: seq<Period> := [
    Period("3 Months (Quarter)", 3),
    Period("6 Months (Half Year)", 6),
    Period("1 Year", 12),
    Period("2 Years", 24),
    Period("5 Years", 60),
    Period("10 Years", 120)]

  /** The goal fields the dialog reads. */
  datatype Goal = Goal(currentAmount: real, monthlyContribution: real)

  /**
   * A row of the table. `percentIncrease` divides by the current amount, so it
   * has no value when that is 0.
   */
  datatype Projection = Projection(
    labelText: string,
    amountToSave: real,
    projectedAmount: real,
    percentIncrease: Option<real>,
    investmentGain: real)

  /** `(projected - current) / current * 100`, which has no value for a current amount of 0. */
  function PercentIncrease(projectedAmount: real, currentAmount: real): (pct: Option<real>)
    ensures currentAmount == 0.0 <==> pct.None?
    ensures pct.Some? ==> pct.value * currentAmount == (projectedAmount - currentAmount) * 100.0
    ensures currentAmount > 0.0 && projectedAmount >= currentAmount ==> pct.Some? && pct.value >= 0.0
  {
    if currentAmount == 0.0 then None
    else
      PercentTimes(projectedAmount - currentAmount, currentAmount);
      assert currentAmount > 0.0 && projectedAmount >= currentAmount ==>
        (projectedAmount - currentAmount) / currentAmount * 100.0 >= 0.0 by {
        if currentAmount > 0.0 && projectedAmount >= currentAmount {
          PercentOf(projectedAmount - currentAmount, currentAmount);
        }
      }
      Some((projectedAmount - currentAmount) / currentAmount * 100.0)
  }

  /** The row for one period. */
  function ProjectionFor(currentAmount: real, monthlyContribution: real, period: Period): (p: Projection)
    ensures p.labelText == period.labelText
    ensures p.amountToSave == monthlyContribution * period.months as real
    ensures p.projectedAmount == Compound(currentAmount, monthlyContribution, MonthlyReturnRate, period.months)
    ensures p.investmentGain == p.projectedAmount - (currentAmount + p.amountToSave)
    ensures currentAmount == 0.0 <==> p.percentIncrease.None?
    ensures p.percentIncrease.Some? ==>
              p.percentIncrease.value * currentAmount == (p.projectedAmount - currentAmount) * 100.0
  {
    var n := period.months;
    var r := MonthlyReturnRate;
    var fvContributions := monthlyContribution * ((Pow(1.0 + r, n) - 1.0) / r);
    var fvInitial := currentAmount * Pow(1.0 + r, n);
    var totalProjected := fvInitial + fvContributions;
    FutureValueIsCompounding(currentAmount, monthlyContribution, r, n);
    var totalInvested := currentAmount + monthlyContribution * n as real;
    Projection(period.labelText, monthlyContribution * n as real, totalProjected,
               PercentIncrease(totalProjected, currentAmount), totalProjected - totalInvested)
  }

  /** `calculateProjections`: nothing without a goal, else one row per period, in order. */
  function CalculateProjections(goal: Option<Goal>): (rows: Option<seq<Projection>>)
    ensures goal.None? <==> rows.None?
    ensures rows.Some? ==> |rows.value| == |Periods| == 6
    ensures rows.Some? ==> forall i :: 0 <= i < |Periods| ==>
              rows.value[i] == ProjectionFor(goal.value.currentAmount, goal.value.monthlyContribution, Periods[i])
  {
    match goal
    case None => None
    case Some(g) =>
      Some(seq(|Periods|, i requires 0 <= i < |Periods| => ProjectionFor(g.currentAmount, g.monthlyContribution, Periods[i])))
  }

  /** The six rows carry the horizons 3, 6, 12, 24, 60 and 120 months with their labels. */
  lemma ProjectionHorizons(g: Goal)
    ensures CalculateProjections(Some(g)).Some?
    ensures var rows := CalculateProjections(Some(g)).value;
      && rows[0].labelText == "3 Months (Quarter)" && rows[0].amountToSave == g.monthlyContribution * 3.0
      && rows[1].labelText == "6 Months (Half Year)" && rows[1].amountToSave == g.monthlyContribution * 6.0
      && rows[2].labelText == "1 Year" && rows[2].amountToSave == g.monthlyContribution * 12.0
      && rows[3].labelText == "2 Years" && rows[3].amountToSave == g.monthlyContribution * 24.0
      && rows[4].labelText == "5 Years" && rows[4].amountToSave == g.monthlyContribution * 60.0
      && rows[5].labelText == "10 Years" && rows[5].amountToSave == g.monthlyContribution * 120.0
  {
  }

  /**
   * Compounding never loses money: with a non-negative current amount and
   * contribution the investment gain is non-negative, as the "+" in the table
   * presumes, and so is the growth percentage.
   */
  lemma GainNonNegative(currentAmount: real, monthlyContribution: real, period: Period)
    requires currentAmount >= 0.0 && monthlyContribution >= 0.0
    ensures ProjectionFor(currentAmount, monthlyContribution, period).investmentGain >= 0.0
    ensures currentAmount > 0.0 ==> ProjectionFor(currentAmount, monthlyContribution, period).percentIncrease.value >= 0.0
  {
    var n := period.months;
    var r := MonthlyReturnRate;
    var p := ProjectionFor(currentAmount, monthlyContribution, period);
    var growth := Pow(1.0 + r, n);
    var annuity := AnnuityFactor(r, n);
    FutureValueIsCompounding(currentAmount, monthlyContribution, r, n);
    assert p.projectedAmount == currentAmount * growth + monthlyContribution * annuity;
    GrowthAtLeastOne(r, n);
    AnnuityAtLeastMonths(r, n);
    GainSplit(currentAmount, monthlyContribution, growth, annuity, n as real);
    MulNonNegative(monthlyContribution, annuity);
  }

  /** The gain splits into the growth of the principal and the growth of the contributions. */
  lemma GainSplit(p: real, c: real, growth: real, annuity: real, n: real)
    requires p >= 0.0 && c >= 0.0 && growth >= 1.0 && annuity >= n
    ensures (p * growth + c * annuity) - (p + c * n) >= 0.0
    ensures p * growth - p >= 0.0
  {
    MulNonNegative(p, growth - 1.0);
    MulNonNegative(c, annuity - n);
    assert (p * growth + c * annuity) - (p + c * n) == p * (growth - 1.0) + c * (annuity - n);
  }
}
