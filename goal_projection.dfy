/**
 * The goal projection simulator of the `analyze-goal` edge function: a Monte
 * Carlo run of 1000 monthly savings paths, the nearest-rank percentiles of the
 * final balances, the sample trajectory of path 0 for the chart, and the
 * closed-form required monthly saving.
 *
 * `Math.random()` is replaced by caller-supplied shocks `u` in [-1, 1) (the
 * edge function's `(Math.random() - 0.5) * 2`), one sequence per path, and
 * `Math.sqrt(1 / 12)` by the parameter `sqrtMonth`.
 */
module GoalProjection {
  import opened Numeric

  const Simulations: nat := 1000
  const InflationRate: real := 0.06
  const MarketMeanReturn: real := 0.12
  const MarketVolatility: real := 0.15

  /** The log-normal drift per month, (mu - sigma^2 / 2) / 12; the same every month. */
  const MonthlyDrift: real := (MarketMeanReturn - 0.5 * Pow(MarketVolatility, 2)) / 12.0

  /** Nearest-rank percentile positions in the sorted outcomes. */
  const OptimisticIndex: int := (Simulations as real * 0.9).Floor
  const MedianIndex: int := (Simulations as real * 0.5).Floor
  const PessimisticIndex: int := (Simulations as real * 0.1).Floor

  lemma PercentileIndices()
    ensures PessimisticIndex == 100 && MedianIndex == 500 && OptimisticIndex == 900
  {
  }

  /** One month's random shock, sigma * sqrt(1/12) * u. */
  function Shock(u: real, sqrtMonth: real): (s: real)
    ensures sqrtMonth >= 0.0 && -1.0 <= u <= 1.0 ==>
              -MarketVolatility * sqrtMonth <= s <= MarketVolatility * sqrtMonth
  {
    assert sqrtMonth >= 0.0 && -1.0 <= u <= 1.0 ==>
             -MarketVolatility * sqrtMonth <= MarketVolatility * sqrtMonth * u <= MarketVolatility * sqrtMonth by {
      if sqrtMonth >= 0.0 && -1.0 <= u <= 1.0 {
        MulNonNegative(MarketVolatility * sqrtMonth, 1.0 - u);
        MulNonNegative(MarketVolatility * sqrtMonth, 1.0 + u);
      }
    }
    MarketVolatility * sqrtMonth * u
  }

  /**
   * One month of a path: grow by drift plus shock, then add the contribution.
   * A non-negative balance ends within one "sigma sqrt(1/12)" band of the
   * drifted balance, plus the contribution.
   */
  function Step(balance: real, contribution: real, u: real, sqrtMonth: real): (next: real)
    ensures balance >= 0.0 && sqrtMonth >= 0.0 && -1.0 <= u <= 1.0 ==>
              balance * (1.0 + MonthlyDrift - MarketVolatility * sqrtMonth) + contribution
              <= next
              <= balance * (1.0 + MonthlyDrift + MarketVolatility * sqrtMonth) + contribution
  {
    var shock := Shock(u, sqrtMonth);
    var band := MarketVolatility * sqrtMonth;
    assert balance >= 0.0 && sqrtMonth >= 0.0 && -1.0 <= u <= 1.0 ==>
             balance * (1.0 + MonthlyDrift - band) <= balance * (1.0 + (MonthlyDrift + shock))
             <= balance * (1.0 + MonthlyDrift + band) by {
      if balance >= 0.0 && sqrtMonth >= 0.0 && -1.0 <= u <= 1.0 {
        MulNonNegative(balance, shock + band);
        MulNonNegative(balance, band - shock);
      }
    }
    balance * (1.0 + (MonthlyDrift + shock)) + contribution
  }

  /**
   * The balance of a path after the months whose shocks are `us`. Saving
   * from a non-negative principal never drives it below zero: a month's
   * return is at least the drift minus 15% of sqrt(1/12), far above -100%.
   */
  function PathBalance(p: real, c: real, us: seq<real>, sqrtMonth: real): (balance: real)
    ensures && p >= 0.0 && c >= 0.0 && 0.0 <= sqrtMonth <= 1.0
            && (forall j :: 0 <= j < |us| ==> -1.0 <= us[j] <= 1.0)
            ==> balance >= 0.0
    decreases |us|
  {
    if |us| == 0 then p
    else
      var before := PathBalance(p, c, us[..|us| - 1], sqrtMonth);
      var u := us[|us| - 1];
      assert before >= 0.0 && c >= 0.0 && 0.0 <= sqrtMonth <= 1.0 && -1.0 <= u <= 1.0 ==>
               Step(before, c, u, sqrtMonth) >= 0.0 by {
        if before >= 0.0 && c >= 0.0 && 0.0 <= sqrtMonth <= 1.0 && -1.0 <= u <= 1.0 {
          StepNonNegative(before, c, u, sqrtMonth);
        }
      }
      Step(before, c, u, sqrtMonth)
  }

  /**
   * For a month root in [0, 1] the worst monthly growth factor is still
   * positive, so a month keeps a non-negative balance non-negative.
   */
  lemma StepNonNegative(balance: real, c: real, u: real, sqrtMonth: real)
    requires balance >= 0.0 && c >= 0.0 && 0.0 <= sqrtMonth <= 1.0 && -1.0 <= u <= 1.0
    ensures Step(balance, c, u, sqrtMonth) >= 0.0
  {
    assert Pow(MarketVolatility, 2) == MarketVolatility * MarketVolatility;
    MulNonNegative(balance, 1.0 + MonthlyDrift - MarketVolatility * sqrtMonth);
  }

  /**
   * The path's `yearlyBalances`: the starting principal, then the balance after
   * every month whose number is a multiple of 12; one point per whole year
   * plus the start.
   */
  function YearlyBalances(p: real, c: real, us: seq<real>, sqrtMonth: real): (ys: seq<real>)
    ensures |ys| == |us| / 12 + 1
    ensures ys[0] == p
    decreases |us|
  {
    if |us| == 0 then [p]
    else
      var earlier := YearlyBalances(p, c, us[..|us| - 1], sqrtMonth);
      if |us| % 12 == 0 then earlier + [PathBalance(p, c, us, sqrtMonth)] else earlier
  }

  /**
   * The yearly trace has one point per whole year plus the start, and point k
   * is the balance after exactly 12 k months.
   */
  lemma {:induction false} YearlyBalancesAtYears(p: real, c: real, us: seq<real>, sqrtMonth: real)
    ensures |YearlyBalances(p, c, us, sqrtMonth)| == |us| / 12 + 1
    ensures YearlyBalances(p, c, us, sqrtMonth)[0] == p
    ensures forall k :: 0 <= k < |YearlyBalances(p, c, us, sqrtMonth)| ==>
              12 * k <= |us| && YearlyBalances(p, c, us, sqrtMonth)[k] == PathBalance(p, c, us[..12 * k], sqrtMonth)
    decreases |us|
  {
    if |us| > 0 {
      var n := |us|;
      var prefix := us[..n - 1];
      YearlyBalancesAtYears(p, c, prefix, sqrtMonth);
      var earlier := YearlyBalances(p, c, prefix, sqrtMonth);
      forall k | 0 <= k < |earlier|
        ensures prefix[..12 * k] == us[..12 * k]
      {
      }
      if n % 12 == 0 {
        assert us[..12 * (n / 12)] == us;
      }
    }
  }

  /**
   * With every shock zero a path is plain monthly compounding at the drift
   * rate, so it ends at the closed-form future value.
   */
  lemma {:induction false} CalmPathIsCompounding(p: real, c: real, n: nat, sqrtMonth: real)
    ensures PathBalance(p, c, seq(n, _ => 0.0), sqrtMonth) == Compound(p, c, MonthlyDrift, n)
    ensures PathBalance(p, c, seq(n, _ => 0.0), sqrtMonth) == FutureValue(p, c, MonthlyDrift, n)
  {
    if n > 0 {
      CalmPathIsCompounding(p, c, n - 1, sqrtMonth);
      assert seq(n, _ => 0.0)[..n - 1] == seq(n - 1, _ => 0.0);
    }
    FutureValueIsCompounding(p, c, MonthlyDrift, n);
  }

  /** `Math.floor(years * 12)`; a negative horizon runs no month at all. */
  function MonthCount(years: real): (m: nat)
    ensures years >= 1.0 ==> m >= 12
    ensures m as real <= if years < 0.0 then 0.0 else years * 12.0
    ensures years >= 0.0 ==> years * 12.0 - 1.0 < m as real
  {
    var f := (years * 12.0).Floor;
    if f < 0 then 0 else f
  }

  /**
   * What the random source delivers: 1000 paths, each with one shock per month,
   * each shock in [-1, 1).
   */
  predicate ValidShocks(shocks: seq<seq<real>>, months: nat)
  {
    && |shocks| == Simulations
    && forall i :: 0 <= i < |shocks| ==>
         && |shocks[i]| == months
         && forall j :: 0 <= j < |shocks[i]| ==> -1.0 <= shocks[i][j] < 1.0
  }

  /** The final balance of every path, in path order. */
  function Finals(p: real, c: real, shocks: seq<seq<real>>, sqrtMonth: real): (f: seq<real>)
    ensures |f| == |shocks|
  {
    seq(|shocks|, i requires 0 <= i < |shocks| => PathBalance(p, c, shocks[i], sqrtMonth))
  }

  /** How many of the balances reach the target; a tie counts as a success. */
  function CountAtLeast(s: seq<real>, target: real): (n: nat)
    ensures n <= |s|
    decreases |s|
  {
    if |s| == 0 then 0
    else CountAtLeast(s[..|s| - 1], target) + (if s[|s| - 1] >= target then 1 else 0)
  }

  /** `(successCount / simulations) * 100`. */
  function SuccessProbability(finals: seq<real>, target: real): (pr: real)
    requires |finals| == Simulations
    ensures 0.0 <= pr <= 100.0
  {
    (CountAtLeast(finals, target) as real / Simulations as real) * 100.0
  }

  predicate SortedAsc(s: seq<real>)
  {
    forall k, l :: 0 <= k < l < |s| ==> s[k] <= s[l]
  }

  lemma {:induction false} CountAppend(a: seq<real>, b: seq<real>, target: real)
    ensures CountAtLeast(a + b, target) == CountAtLeast(a, target) + CountAtLeast(b, target)
    decreases |b|
  {
    if |b| > 0 {
      assert (a + b)[..|a + b| - 1] == a + b[..|b| - 1];
      CountAppend(a, b[..|b| - 1], target);
    } else {
      assert a + b == a;
    }
  }

  /** Taking out position k removes exactly that element from the count. */
  lemma CountRemove(u: seq<real>, k: nat, target: real)
    requires k < |u|
    ensures CountAtLeast(u, target)
         == CountAtLeast(u[..k] + u[k + 1..], target) + (if u[k] >= target then 1 else 0)
  {
    assert u == u[..k] + [u[k]] + u[k + 1..];
    CountAppend(u[..k] + [u[k]], u[k + 1..], target);
    CountAppend(u[..k], [u[k]], target);
    CountAppend(u[..k], u[k + 1..], target);
    assert [u[k]][..0] == [];
  }

  /** Taking out position k removes one copy of that element from the multiset. */
  lemma MultisetRemove(u: seq<real>, k: nat)
    requires k < |u|
    ensures multiset(u[..k] + u[k + 1..]) == multiset(u) - multiset{u[k]}
  {
    assert u == u[..k] + [u[k]] + u[k + 1..];
  }

  /** The success count depends only on the multiset of outcomes, not their order. */
  lemma {:induction false} CountPermutation(s: seq<real>, u: seq<real>, target: real)
    requires multiset(s) == multiset(u)
    ensures CountAtLeast(s, target) == CountAtLeast(u, target)
    decreases |s|
  {
    if |s| == 0 {
      assert |u| == |multiset(u)| == 0;
    } else {
      var x := s[|s| - 1];
      var prefix := s[..|s| - 1];
      assert s == prefix + [x];
      assert x in multiset(u);
      var k :| 0 <= k < |u| && u[k] == x;
      var rest := u[..k] + u[k + 1..];
      MultisetRemove(u, k);
      assert multiset(prefix) == multiset(s) - multiset{x};
      CountPermutation(prefix, rest, target);
      CountRemove(u, k, target);
    }
  }

  /** If every balance from position k on meets the target, at least |s| - k do. */
  lemma {:induction false} CountFromAtLeast(s: seq<real>, k: nat, target: real)
    requires k <= |s|
    requires forall m :: k <= m < |s| ==> s[m] >= target
    ensures CountAtLeast(s, target) >= |s| - k
    decreases |s|
  {
    if |s| > k {
      var prefix := s[..|s| - 1];
      assert forall m :: k <= m < |prefix| ==> prefix[m] >= target by {
        forall m | k <= m < |prefix| ensures prefix[m] >= target {
          assert prefix[m] == s[m];
        }
      }
      CountFromAtLeast(prefix, k, target);
    }
  }

  /** If every balance up to position k misses the target, at most |s| - k - 1 meet it. */
  lemma {:induction false} CountUpToBelow(s: seq<real>, k: nat, target: real)
    requires forall m :: 0 <= m <= k && m < |s| ==> s[m] < target
    ensures CountAtLeast(s, target) <= if k < |s| then |s| - k - 1 else 0
    decreases |s|
  {
    if |s| > 0 {
      var prefix := s[..|s| - 1];
      assert forall m :: 0 <= m <= k && m < |prefix| ==> prefix[m] < target by {
        forall m | 0 <= m <= k && m < |prefix| ensures prefix[m] < target {
          assert prefix[m] == s[m];
        }
      }
      CountUpToBelow(prefix, k, target);
    }
  }

  /** In sorted outcomes, position k meeting the target means everything from k on meets it. */
  lemma CountSortedFrom(s: seq<real>, k: nat, target: real)
    requires SortedAsc(s) && k < |s|
    ensures s[k] >= target ==> CountAtLeast(s, target) >= |s| - k
    ensures s[k] < target ==> CountAtLeast(s, target) <= |s| - k - 1
  {
    if s[k] >= target {
      assert forall m :: k <= m < |s| ==> s[m] >= target by {
        forall m | k <= m < |s| ensures s[m] >= target {
          if m > k {
            assert s[k] <= s[m];
          }
        }
      }
      CountFromAtLeast(s, k, target);
    } else {
      assert forall m :: 0 <= m <= k ==> s[m] < target by {
        forall m | 0 <= m <= k ensures s[m] < target {
          if m < k {
            assert s[m] <= s[k];
          }
        }
      }
      CountUpToBelow(s, k, target);
    }
  }

  /**
   * The percentiles and the success probability agree: if the pessimistic
   * (10th percentile) outcome reaches the target, at least 90% of paths
   * succeed; if the median misses it, fewer than half do; if even the
   * optimistic (90th percentile) outcome misses it, fewer than 10% do.
   */
  lemma PercentilesBoundProbability(finals: seq<real>, outcomes: seq<real>, target: real)
    requires |finals| == Simulations
    requires SortedAsc(outcomes) && multiset(outcomes) == multiset(finals)
    ensures |outcomes| == Simulations
    ensures outcomes[PessimisticIndex] >= target ==> SuccessProbability(finals, target) >= 90.0
    ensures outcomes[MedianIndex] < target ==> SuccessProbability(finals, target) < 50.0
    ensures outcomes[OptimisticIndex] < target ==> SuccessProbability(finals, target) < 10.0
  {
    assert |outcomes| == |multiset(outcomes)| == |multiset(finals)| == |finals|;
    PercentileIndices();
    CountPermutation(finals, outcomes, target);
    CountSortedFrom(outcomes, PessimisticIndex, target);
    CountSortedFrom(outcomes, MedianIndex, target);
    CountSortedFrom(outcomes, OptimisticIndex, target);
  }

  /** A chart point of the sample path: the year and `Math.round` of the balance. */
  datatype ChartPoint = ChartPoint(year: nat, balance: int)

  function ChartOf(balances: seq<real>): (chart: seq<ChartPoint>)
    ensures |chart| == |balances|
    ensures forall k :: 0 <= k < |chart| ==> chart[k].year == k && chart[k].balance == Round(balances[k])
  {
    seq(|balances|, k requires 0 <= k < |balances| => ChartPoint(k, Round(balances[k])))
  }

  /**
   * The sample chart of a path: point k is year k with the rounded balance
   * after exactly 12 k months.
   */
  lemma SampleChartAtYears(p: real, c: real, us: seq<real>, sqrtMonth: real)
    ensures |ChartOf(YearlyBalances(p, c, us, sqrtMonth))| == |us| / 12 + 1
    ensures forall k :: 0 <= k < |ChartOf(YearlyBalances(p, c, us, sqrtMonth))| ==>
              12 * k <= |us| && ChartOf(YearlyBalances(p, c, us, sqrtMonth))[k] == ChartPoint(k, Round(PathBalance(p, c, us[..12 * k], sqrtMonth)))
  {
    YearlyBalancesAtYears(p, c, us, sqrtMonth);
  }

  datatype SimulationResult = SimulationResult(
    probability: real,
    optimistic: real,
    median: real,
    pessimistic: real,
    chart: seq<ChartPoint>)

  /** Exchange two neighbouring elements. */
  method SwapDown(a: array<real>, j: nat)
    requires 0 < j < a.Length
    modifies a
    ensures a[j - 1] == old(a[j]) && a[j] == old(a[j - 1])
    ensures forall k :: 0 <= k < a.Length && k != j - 1 && k != j ==> a[k] == old(a[k])
    ensures multiset(a[..]) == old(multiset(a[..]))
  {
    a[j - 1], a[j] := a[j], a[j - 1];
  }

  /**
   * One insertion step: with `a[..i]` ascending, swap `a[i]` leftwards until
   * `a[..i + 1]` is ascending.
   */
  method InsertIntoSorted(a: array<real>, i: nat)
    requires i < a.Length
    requires forall k, l :: 0 <= k < l < i ==> a[k] <= a[l]
    modifies a
    ensures forall k, l :: 0 <= k < l <= i ==> a[k] <= a[l]
    ensures multiset(a[..]) == old(multiset(a[..]))
  {
    var j := i;
    while j > 0 && a[j - 1] > a[j]
      invariant 0 <= j <= i
      invariant forall k, l :: 0 <= k < l <= i && k != j && l != j ==> a[k] <= a[l]
      invariant forall l :: j < l <= i ==> a[j] <= a[l]
      invariant multiset(a[..]) == old(multiset(a[..]))
    {
      SwapDown(a, j);
      j := j - 1;
    }
  }

  /** `outcomes.sort((a, b) => a - b)`: ascending, in place. */
  method SortAscending(a: array<real>)
    modifies a
    ensures SortedAsc(a[..])
    ensures multiset(a[..]) == old(multiset(a[..]))
  {
    var i := 0;
    while i < a.Length
      invariant 0 <= i <= a.Length
      invariant forall k, l :: 0 <= k < l < i ==> a[k] <= a[l]
      invariant multiset(a[..]) == old(multiset(a[..]))
    {
      InsertIntoSorted(a, i);
      i := i + 1;
    }
  }

  /** The balance after month m is one step from the balance after month m - 1. */
  lemma PathStep(p: real, c: real, us: seq<real>, m: nat, sqrtMonth: real)
    requires 1 <= m <= |us|
    ensures PathBalance(p, c, us[..m], sqrtMonth) == Step(PathBalance(p, c, us[..m - 1], sqrtMonth), c, us[m - 1], sqrtMonth)
  {
    assert us[..m][..m - 1] == us[..m - 1];
  }

  /** The loop's update with the month's return is one `Step`. */
  lemma UpdateIsStep(balance: real, c: real, u: real, sqrtMonth: real, monthlyReturn: real)
    requires monthlyReturn == MonthlyDrift + Shock(u, sqrtMonth)
    ensures balance * (1.0 + monthlyReturn) + c == Step(balance, c, u, sqrtMonth)
  {
  }

  /** Month m adds a point to the yearly trace exactly when it closes a year. */
  lemma YearlyStep(p: real, c: real, us: seq<real>, m: nat, sqrtMonth: real)
    requires 1 <= m <= |us|
    ensures YearlyBalances(p, c, us[..m], sqrtMonth)
         == if m % 12 == 0 then YearlyBalances(p, c, us[..m - 1], sqrtMonth) + [PathBalance(p, c, us[..m], sqrtMonth)]
            else YearlyBalances(p, c, us[..m - 1], sqrtMonth)
  {
    assert us[..m][..m - 1] == us[..m - 1];
  }

  /**
   * One path of `runMonteCarlo`: the month loop over the path's shocks, giving
   * the final balance and the yearly trace.
   */
  method SimulatePath(currentPrincipal: real, monthlyContribution: real, us: seq<real>, sqrtMonth: real)
    returns (balance: real, yearlyBalances: seq<real>)
    ensures balance == PathBalance(currentPrincipal, monthlyContribution, us, sqrtMonth)
    ensures yearlyBalances == YearlyBalances(currentPrincipal, monthlyContribution, us, sqrtMonth)
  {
    balance := currentPrincipal;
    yearlyBalances := [currentPrincipal];
    var months := |us|;
    var m := 1;
    while m <= months
      invariant 1 <= m <= months + 1
      invariant balance == PathBalance(currentPrincipal, monthlyContribution, us[..m - 1], sqrtMonth)
      invariant yearlyBalances == YearlyBalances(currentPrincipal, monthlyContribution, us[..m - 1], sqrtMonth)
    {
      var drift := (MarketMeanReturn - 0.5 * Pow(MarketVolatility, 2)) / 12.0;
      var shock := MarketVolatility * sqrtMonth * us[m - 1];
      var monthlyReturn := drift + shock;
      assert monthlyReturn == MonthlyDrift + Shock(us[m - 1], sqrtMonth);
      PathStep(currentPrincipal, monthlyContribution, us, m, sqrtMonth);
      YearlyStep(currentPrincipal, monthlyContribution, us, m, sqrtMonth);
      UpdateIsStep(balance, monthlyContribution, us[m - 1], sqrtMonth, monthlyReturn);
      balance := balance * (1.0 + monthlyReturn) + monthlyContribution;
      assert balance == PathBalance(currentPrincipal, monthlyContribution, us[..m], sqrtMonth);
      if m % 12 == 0 {
        yearlyBalances := yearlyBalances + [balance];
      }
      m := m + 1;
    }
    assert us[..months] == us;
  }

  /**
   * The path loop of `runMonteCarlo`: every path's final balance in `finals`,
   * the number of paths that reach the target, and the chart of path 0.
   */
  method SimulatePaths(currentPrincipal: real, monthlyContribution: real, targetAmount: real,
                       shocks: seq<seq<real>>, sqrtMonth: real)
    returns (finals: array<real>, successCount: nat, chartData: seq<ChartPoint>)
    requires |shocks| == Simulations
    ensures fresh(finals)
    ensures finals[..] == Finals(currentPrincipal, monthlyContribution, shocks, sqrtMonth)
    ensures successCount == CountAtLeast(finals[..], targetAmount)
    ensures chartData == ChartOf(YearlyBalances(currentPrincipal, monthlyContribution, shocks[0], sqrtMonth))
  {
    successCount := 0;
    finals := new real[Simulations];
    chartData := [];
    var i := 0;
    while i < Simulations
      invariant 0 <= i <= Simulations
      invariant forall k :: 0 <= k < i ==> finals[k] == PathBalance(currentPrincipal, monthlyContribution, shocks[k], sqrtMonth)
      invariant successCount == CountAtLeast(finals[..i], targetAmount)
      invariant i > 0 ==> chartData == ChartOf(YearlyBalances(currentPrincipal, monthlyContribution, shocks[0], sqrtMonth))
    {
      var balance, yearlyBalances := SimulatePath(currentPrincipal, monthlyContribution, shocks[i], sqrtMonth);
      finals[i] := balance;
      assert finals[..i + 1][..i] == finals[..i];
      if balance >= targetAmount {
        successCount := successCount + 1;
      }
      if i == 0 {
        chartData := ChartOf(yearlyBalances);
      }
      i := i + 1;
    }
    assert finals[..i] == finals[..];
  }

  /**
   * `runMonteCarlo`: 1000 paths of `months = floor(years * 12)` steps each.
   * Besides the summary it returns the sorted outcomes the percentiles are read
   * from.
   */
  method RunMonteCarlo(currentPrincipal: real, monthlyContribution: real, years: real,
                       targetAmount: real, shocks: seq<seq<real>>, sqrtMonth: real)
    returns (result: SimulationResult, outcomes: seq<real>)
    requires ValidShocks(shocks, MonthCount(years))
    ensures |outcomes| == Simulations
    ensures SortedAsc(outcomes)
    ensures multiset(outcomes) == multiset(Finals(currentPrincipal, monthlyContribution, shocks, sqrtMonth))
    ensures result.probability == SuccessProbability(Finals(currentPrincipal, monthlyContribution, shocks, sqrtMonth), targetAmount)
    ensures 0.0 <= result.probability <= 100.0
    ensures result.optimistic == outcomes[OptimisticIndex]
    ensures result.median == outcomes[MedianIndex]
    ensures result.pessimistic == outcomes[PessimisticIndex]
    ensures result.pessimistic <= result.median <= result.optimistic
    ensures result.chart == ChartOf(YearlyBalances(currentPrincipal, monthlyContribution, shocks[0], sqrtMonth))
    ensures |result.chart| == MonthCount(years) / 12 + 1
    ensures result.chart[0] == ChartPoint(0, Round(currentPrincipal))
  {
    var finals, successCount, chartData := SimulatePaths(currentPrincipal, monthlyContribution, targetAmount, shocks, sqrtMonth);
    ghost var recorded := finals[..];
    SortAscending(finals);
    outcomes := finals[..];
    assert |outcomes| == |multiset(outcomes)| == |multiset(recorded)| == Simulations;
    result := SimulationResult(
      (successCount as real / Simulations as real) * 100.0,
      outcomes[OptimisticIndex],
      outcomes[MedianIndex],
      outcomes[PessimisticIndex],
      chartData);
    YearlyBalancesAtYears(currentPrincipal, monthlyContribution, shocks[0], sqrtMonth);
  }

  /**
   * `calculateRequiredMonthly` over a whole number of months: 0 when the
   * principal compounded alone reaches the target, otherwise the level payment
   * that closes the shortfall.
   */
  function RequiredMonthly(target: real, current: real, months: nat, rate: real): (pmt: real)
    requires rate > 0.0 && months > 0
    ensures pmt >= 0.0
    ensures pmt == 0.0 <==> current * Pow(1.0 + rate / 12.0, months) >= target
    ensures pmt > 0.0 ==> FutureValue(current, pmt, rate / 12.0, months) == target
  {
    var monthlyRate := rate / 12.0;
    var futureValuePrincipal := current * Pow(1.0 + monthlyRate, months);
    var shortfall := target - futureValuePrincipal;
    if shortfall <= 0.0 then 0.0
    else
      var denominator := AnnuityFactor(monthlyRate, months);
      AnnuityPositive(monthlyRate, months);
      DivThenMul(shortfall, denominator);
      shortfall / denominator
  }

  /**
   * Saving at least the required amount every month reaches the target when the
   * money compounds month by month at the assumed rate.
   */
  lemma RequiredMonthlyMeetsTarget(target: real, current: real, months: nat, rate: real, contribution: real)
    requires rate > 0.0 && months > 0
    requires contribution >= RequiredMonthly(target, current, months, rate)
    ensures Compound(current, contribution, rate / 12.0, months) >= target
  {
    var r := rate / 12.0;
    var pmt := RequiredMonthly(target, current, months, rate);
    FutureValueIsCompounding(current, contribution, r, months);
    AnnuityPositive(r, months);
    MulNonNegative(contribution - pmt, AnnuityFactor(r, months));
    assert FutureValue(current, contribution, r, months)
        == FutureValue(current, pmt, r, months) + (contribution - pmt) * AnnuityFactor(r, months);
  }

  /**
   * Five years to a 500000 target from nothing needs less than 10000 a month at
   * the assumed 12% return.
   */
  lemma RequiredMonthlyFiveYearExample()
    ensures RequiredMonthly(500000.0, 0.0, 60, MarketMeanReturn) < 10000.0
  {
    var r := MarketMeanReturn / 12.0;
    AnnuityAtLeastMonths(r, 60);
    assert AnnuityFactor(r, 60) >= 60.0;
  }

  /** `Math.max(1, years)`: a goal due within a year, or past due, gets a one-year horizon. */
  function YearsToGoal(elapsedYears: real): (years: real)
    ensures years >= 1.0 && years >= elapsedYears
    ensures years == elapsedYears || years == 1.0
  {
    if elapsedYears >= 1.0 then elapsedYears else 1.0
  }

  /**
   * The target scaled by 6% inflation per whole year: never below the target
   * plus 6% simple interest per year, for a non-negative target.
   */
  function InflationAdjustedTarget(target: real, wholeYears: nat): (adjusted: real)
    ensures target >= 0.0 ==> adjusted >= target * (1.0 + wholeYears as real * InflationRate)
    ensures target >= 0.0 ==> adjusted >= target
    ensures wholeYears == 0 ==> adjusted == target
  {
    var growth := Pow(1.0 + InflationRate, wholeYears);
    Bernoulli(InflationRate, wholeYears);
    var simple := 1.0 + wholeYears as real * InflationRate;
    assert target >= 0.0 ==> target * growth >= target * simple >= target by {
      if target >= 0.0 {
        MulNonNegative(target, growth - simple);
        MulNonNegative(target, simple - 1.0);
      }
    }
    target * growth
  }

  /** One more year of inflation scales the adjusted target by 1.06. */
  lemma InflationYearStep(target: real, wholeYears: nat)
    ensures InflationAdjustedTarget(target, wholeYears + 1) == InflationAdjustedTarget(target, wholeYears) * (1.0 + InflationRate)
  {
    var g := Pow(1.0 + InflationRate, wholeYears);
    assert Pow(1.0 + InflationRate, wholeYears + 1) == (1.0 + InflationRate) * g;
    assert target * ((1.0 + InflationRate) * g) == (target * g) * (1.0 + InflationRate);
  }

  /** The `metrics` block of the response: every figure passed through `Math.round`. */
  datatype GoalMetrics = GoalMetrics(
    successProbability: int,
    projectedValue: int,
    worstCaseValue: int,
    requiredMonthlySavings: int,
    inflationAdjustedTarget: int,
    gapValue: int)

  /**
   * The numeric part of the edge function: horizon clamp, simulation, required
   * saving, inflation and gap.
   */
  method AnalyzeGoal(targetAmount: real, currentAmount: real, monthlyContribution: real,
                     elapsedYears: real, shocks: seq<seq<real>>, sqrtMonth: real)
    returns (metrics: GoalMetrics, chart: seq<ChartPoint>, simulation: SimulationResult, outcomes: seq<real>)
    requires ValidShocks(shocks, MonthCount(YearsToGoal(elapsedYears)))
    ensures |outcomes| == Simulations && SortedAsc(outcomes)
    ensures multiset(outcomes) == multiset(Finals(currentAmount, monthlyContribution, shocks, sqrtMonth))
    ensures simulation.probability == SuccessProbability(Finals(currentAmount, monthlyContribution, shocks, sqrtMonth), targetAmount)
    ensures simulation.optimistic == outcomes[OptimisticIndex]
    ensures simulation.median == outcomes[MedianIndex]
    ensures simulation.pessimistic == outcomes[PessimisticIndex]
    ensures 0 <= metrics.successProbability <= 100
    ensures metrics.successProbability == Round(simulation.probability)
    ensures metrics.projectedValue == Round(simulation.median)
    ensures metrics.worstCaseValue == Round(simulation.pessimistic)
    ensures metrics.worstCaseValue <= metrics.projectedValue
    ensures metrics.requiredMonthlySavings >= 0
    ensures metrics.requiredMonthlySavings
         == Round(RequiredMonthly(targetAmount, currentAmount, MonthCount(YearsToGoal(elapsedYears)), MarketMeanReturn))
    ensures metrics.inflationAdjustedTarget
         == Round(InflationAdjustedTarget(targetAmount, MonthCount(YearsToGoal(elapsedYears)) / 12))
    ensures targetAmount >= 0.0 ==> metrics.inflationAdjustedTarget >= Round(targetAmount)
    ensures metrics.gapValue == Round(targetAmount - simulation.median)
    ensures chart == simulation.chart
    ensures chart == ChartOf(YearlyBalances(currentAmount, monthlyContribution, shocks[0], sqrtMonth))
    ensures |chart| == MonthCount(YearsToGoal(elapsedYears)) / 12 + 1 >= 2
  {
    var years := YearsToGoal(elapsedYears);
    simulation, outcomes := RunMonteCarlo(currentAmount, monthlyContribution, years, targetAmount, shocks, sqrtMonth);
    var months := MonthCount(years);
    var requiredMonthly := RequiredMonthly(targetAmount, currentAmount, months, MarketMeanReturn);
    var inflationAdjusted := InflationAdjustedTarget(targetAmount, months / 12);
    var gap := targetAmount - simulation.median;
    RoundMonotone(simulation.pessimistic, simulation.median);
    if targetAmount >= 0.0 {
      RoundMonotone(targetAmount, inflationAdjusted);
    }
    metrics := GoalMetrics(
      Round(simulation.probability),
      Round(simulation.median),
      Round(simulation.pessimistic),
      Round(requiredMonthly),
      Round(inflationAdjusted),
      Round(gap));
    chart := simulation.chart;
  }
}
