/**
 * The display logic of a goal card: the progress percentage, the status tier
 * (its text and its colour classes) and the icon chosen by goal type.
 */
module GoalCard {
  import opened Numeric

  datatype Icon = PiggyBank | Home | GraduationCap | Plane | Target | TrendingUp

  /** `goalIcons`: the icon per goal type. */
  const GoalIcons: map<string, Icon> := map[
    "retirement" := PiggyBank,
    "home" := Home,
    "education" := GraduationCap,
    "travel" := Plane,
    "emergency" := Target,
    "other" := TrendingUp]

  /** `goalIcons[goal.goal_type] || Target`. */
  function IconFor(goalType: string): (icon: Icon)
    ensures goalType in GoalIcons ==> icon == GoalIcons[goalType]
    ensures goalType !in GoalIcons ==> icon == Target
  {
    if goalType in GoalIcons then GoalIcons[goalType] else Target
  }

  /**
   * Each listed goal type has an icon of its own; every other type shares the
   * Target icon with emergency goals.
   */
  lemma IconsTellTypesApart(t1: string, t2: string)
    ensures t1 in GoalIcons && t2 in GoalIcons ==> (IconFor(t1) == IconFor(t2) <==> t1 == t2)
    ensures IconFor(t1) == Target <==> t1 == "emergency" || t1 !in GoalIcons
  {
  }

  /**
   * `target > 0 ? Math.min(100, Math.round(current / target * 100)) : 0`:
   * the saved share of the target as a whole percentage, capped at 100.
   */
  function Progress(current: real, target: real): (p: int)
    ensures target <= 0.0 ==> p == 0
    ensures p <= 100
    ensures target > 0.0 && current < target ==> p as real - 0.5 <= current / target * 100.0 < p as real + 0.5
    ensures target > 0.0 && current >= target ==> p == 100
    ensures current >= 0.0 ==> p >= 0
  {
    if target > 0.0 then
      var share := current / target * 100.0;
      PercentOf(current, target);
      Min(100, Round(share))
    else 0
  }

  /** Saving more never lowers the progress shown. */
  lemma ProgressMonotone(current1: real, current2: real, target: real)
    requires current1 <= current2
    ensures Progress(current1, target) <= Progress(current2, target)
  {
    if target > 0.0 {
      DivThenMul(current1, target);
      DivThenMul(current2, target);
      CancelPositiveFactor(current1 / target, current2 / target, target);
      RoundMonotone(current1 / target * 100.0, current2 / target * 100.0);
    }
  }

  /** The tier labels from lowest to highest. */
  const TierTexts: seq<string> := ["Needs Attention", "Making Progress", "On Track", "Ahead of Schedule"]
  const TierColors: seq<string> := [
    "text-muted-foreground bg-muted/10 border-muted/20",
    "text-warning bg-warning/10 border-warning/20",
    "text-accent bg-accent/10 border-accent/20",
    "text-success bg-success/10 border-success/20"]

  /** Reference definition of the tier: the number of thresholds (25, 50, 75) reached. */
  function Tier(progress: int): (k: nat)
    ensures k <= 3
  {
    (if progress >= 25 then 1 else 0) + (if progress >= 50 then 1 else 0) + (if progress >= 75 then 1 else 0)
  }

  /** `getStatusColor`: the colour classes of the progress's tier. */
  function StatusColor(progress: int): (color: string)
    ensures color == TierColors[Tier(progress)]
  {
    if progress >= 75 then "text-success bg-success/10 border-success/20"
    else if progress >= 50 then "text-accent bg-accent/10 border-accent/20"
    else if progress >= 25 then "text-warning bg-warning/10 border-warning/20"
    else "text-muted-foreground bg-muted/10 border-muted/20"
  }

  /** `getStatusText`: the label of the progress's tier. */
  function StatusText(progress: int): (text: string)
    ensures text == TierTexts[Tier(progress)]
  {
    if progress >= 75 then "Ahead of Schedule"
    else if progress >= 50 then "On Track"
    else if progress >= 25 then "Making Progress"
    else "Needs Attention"
  }

  /** Two progress values show the same text exactly when they show the same colour. */
  lemma TextAndColorAgree(p1: int, p2: int)
    ensures StatusText(p1) == StatusText(p2) <==> StatusColor(p1) == StatusColor(p2)
    ensures StatusText(p1) == StatusText(p2) <==> Tier(p1) == Tier(p2)
  {
  }

  /** Raising the progress never moves a goal to a lower tier. */
  lemma TierMonotone(p1: int, p2: int)
    requires p1 <= p2
    ensures Tier(p1) <= Tier(p2)
  {
  }

  /** A card's progress and status, as the card renders them. */
  datatype CardStatus = CardStatus(icon: Icon, progress: int, statusText: string, statusColor: string)

  function CardStatusOf(goalType: string, current: real, target: real): (s: CardStatus)
    ensures s.icon == IconFor(goalType) && s.progress == Progress(current, target)
    ensures s.statusText == TierTexts[Tier(s.progress)] && s.statusColor == TierColors[Tier(s.progress)]
    ensures s.progress <= 100
    ensures target > 0.0 && current >= target ==> s.statusText == "Ahead of Schedule"
  {
    var progress := Progress(current, target);
    CardStatus(IconFor(goalType), progress, StatusText(progress), StatusColor(progress))
  }
}
