# Fina quantitative core in Dafny

This project models the arithmetic core of the Fina personal-finance app and
proves properties of it. The core has two parts:

- the three Deno edge functions that do quantitative work:
  - `analyze-goal`: a Monte Carlo goal projection, the required monthly saving, the inflation-adjusted target and the gap;
  - `analyze-portfolio`: a one-day GBM revaluation, NAV, volatility-weighted NAV, liquid NAV, Sharpe ratio, monthly VaR, liquidity ratio and a Herfindahl diversification score with scale 135;
  - `rebalance-portfolio`: the same valuation without the quantity default and without collectibles in its table, with diversification scale 125;
- the small calculations in the React front end:
  - the progress, status tiers and icon of a goal card;
  - the dashboard folds over accounts, goals and transactions;
  - the fixed-period projection table of the goal analysis dialog;
  - the three-step withdrawal confirmation page.

Numbers are Dafny `real`s, mathematical reals standing in for JavaScript doubles.
`Math.round(x)` is `floor(x + 0.5)`. `Math.random()` becomes caller-supplied
shocks: one sequence per Monte Carlo path, one shock per asset in the
portfolio functions. `Math.sqrt(1/12)`, `Math.sqrt(1/252)` and `Math.sqrt(12)`
become the parameters `sqrtMonth`, `sqrtDt` and `sqrtTwelve`. Powers have
natural-number exponents.

The modules are:

- `wrappers.dfy`: `Option`.
- `numeric.dfy`: rounding, clamping, powers, the annuity factor and future value, and the arithmetic lemmas the rest uses.
- `goal_projection.dfy`: `analyze-goal`. Imperative, with an in-place insertion sort over an `array`.
- `risk_core.dfy`: the leaf functions shared by both portfolio edge functions. This covers the price move, Sharpe ratio, portfolio volatility, VaR and the diversification score. The diversification score is a dictionary-filling method proved against a reference definition.
- `analyze_portfolio.dfy` and `rebalance_portfolio.dfy`: the two valuation loops and metric blocks.
- `goal_card.dfy`, `financial_data.dfy` and `goal_analysis.dfy`: the pure UI calculations.
- `jailbreak.dfy`: the withdrawal page as a class. Its fields are the page's state hooks and its methods are the click handlers.

## Model

| member | source | states |
|---|---|---|
| GoalProjection.PercentileIndices | supabase/functions/analyze-goal/index.ts:57-59 | the nearest-rank indices floor(1000 * 0.1), floor(1000 * 0.5) and floor(1000 * 0.9) are 100, 500 and 900 |
| GoalProjection.Shock | supabase/functions/analyze-goal/index.ts:36 | a monthly shock with u in [-1, 1] and a non-negative sqrt(1/12) lies within plus or minus 0.15 * sqrt(1/12) |
| GoalProjection.Step | supabase/functions/analyze-goal/index.ts:33-39 | for a non-negative balance and u in [-1, 1], one month ends between balance * (1 + drift - 0.15 sqrt(1/12)) + contribution and balance * (1 + drift + 0.15 sqrt(1/12)) + contribution |
| GoalProjection.PathBalance | supabase/functions/analyze-goal/index.ts:30-40 | with a non-negative principal and contribution, shocks in [-1, 1] and a month root in [0, 1], the balance never goes negative |
| GoalProjection.YearlyBalances | supabase/functions/analyze-goal/index.ts:31-41 | the trace has floor(months / 12) + 1 points and starts with the principal |
| GoalProjection.YearlyBalancesAtYears | supabase/functions/analyze-goal/index.ts:30-41 | the yearly trace has floor(months / 12) + 1 points; point 0 is the principal; point k is the balance after exactly 12k months |
| GoalProjection.CalmPathIsCompounding | supabase/functions/analyze-goal/index.ts:35-39 | with every shock zero, a path equals monthly compounding at the constant drift rate plus the contribution, and also the closed-form future value |
| GoalProjection.MonthCount | supabase/functions/analyze-goal/index.ts:22 | floor(years * 12): the whole number m with years * 12 - 1 < m ≤ years * 12 for a non-negative horizon (0 for a negative one); at least 12 for a horizon of at least one year |
| GoalProjection.CountAtLeast | supabase/functions/analyze-goal/index.ts:45 | the number of finals at or above the target, ties included, is at most the number of paths |
| GoalProjection.SuccessProbability | supabase/functions/analyze-goal/index.ts:56 | (successCount / 1000) * 100 lies in [0, 100] |
| GoalProjection.CountPermutation | supabase/functions/analyze-goal/index.ts:44-56 | the success count depends only on the multiset of outcomes, so sorting does not change it |
| GoalProjection.CountSortedFrom | supabase/functions/analyze-goal/index.ts:53 | in ascending outcomes, if position k meets the target then at least n - k outcomes do; if it misses, at most n - k - 1 do |
| GoalProjection.PercentilesBoundProbability | supabase/functions/analyze-goal/index.ts:55-59 | pessimistic at or above target ⇒ probability ≥ 90; median below target ⇒ probability < 50; optimistic below target ⇒ probability < 10 |
| GoalProjection.SampleChartAtYears | supabase/functions/analyze-goal/index.ts:47-50 | the chart of a path has floor(months / 12) + 1 points; point k is year k with the rounded balance after exactly 12k months |
| GoalProjection.InsertIntoSorted | supabase/functions/analyze-goal/index.ts:53 | one insertion step extends the ascending prefix by one element and keeps the multiset of the array |
| GoalProjection.SortAscending | supabase/functions/analyze-goal/index.ts:53 | the array ends ascending and is a permutation of what it held |
| GoalProjection.SimulatePath | supabase/functions/analyze-goal/index.ts:30-42 | the month loop ends with the path balance (balance * (1 + drift + shock) + contribution, once per shock) and the yearly trace |
| GoalProjection.SimulatePaths | supabase/functions/analyze-goal/index.ts:29-51 | the path loop records every path's final balance in order; it counts the finals that reach the target; it keeps the chart of path 0 |
| GoalProjection.RunMonteCarlo | supabase/functions/analyze-goal/index.ts:15-62 | 1000 outcomes, ascending and a permutation of the finals; probability = success share * 100, in [0, 100]; the percentiles read at 100/500/900 are ordered; the chart has floor(months / 12) + 1 points and starts at round(principal) |
| GoalProjection.RequiredMonthly | supabase/functions/analyze-goal/index.ts:65-76 | zero exactly when the compounded principal already reaches the target; otherwise positive, and the payment whose future value is exactly the target |
| GoalProjection.RequiredMonthlyMeetsTarget | supabase/functions/analyze-goal/index.ts:65-76 | contributing at least the required amount each month reaches the target under month-by-month compounding |
| GoalProjection.RequiredMonthlyFiveYearExample | supabase/functions/analyze-goal/index.ts:65-76 | 500000 in 60 months from nothing at 12% needs less than 10000 a month |
| GoalProjection.YearsToGoal | supabase/functions/analyze-goal/index.ts:88 | max(1, years): at least 1 and at least the elapsed time, and equal to one of them |
| GoalProjection.InflationAdjustedTarget | supabase/functions/analyze-goal/index.ts:94 | a non-negative target grows to at least target * (1 + 0.06 n) over n whole years, so never below the target; zero years leave it unchanged |
| GoalProjection.InflationYearStep | supabase/functions/analyze-goal/index.ts:94 | each further year multiplies the adjusted target by 1.06 |
| GoalProjection.AnalyzeGoal | supabase/functions/analyze-goal/index.ts:86-95 | the sorted outcomes are a permutation of the path finals; median and worst case are the outcomes at 500 and 100; success = round(probability of the finals), in [0, 100]; projected = round(median) ≥ worst case = round(pessimistic); required saving = round(RequiredMonthly) ≥ 0; inflation target = round of the target inflated over the whole years, never below round(target) for a non-negative target; gap = round(target - median); the chart is that of path 0, with at least two points |
| RiskCore.SimulateMarketMove | supabase/functions/analyze-portfolio/index.ts:39-46 | for a non-negative base price and a shock in [-1, 1], the one-day price stays within base * (1 + 0.05 dt ± vol sqrt(dt)) |
| RiskCore.SharpeRatio | supabase/functions/analyze-portfolio/index.ts:49-52 | zero for zero volatility; otherwise sharpe * volatility is the excess return over 0.045 |
| RiskCore.PortfolioVolatility | supabase/functions/analyze-portfolio/index.ts:115 | zero for a non-positive NAV; otherwise vol * NAV equals the weighted volatility |
| RiskCore.ValueAtRisk | supabase/functions/analyze-portfolio/index.ts:122-123 | VaR * sqrt(12) = NAV * 1.65 * vol; non-negative for non-negative NAV and volatility |
| RiskCore.WeightedSumBetween | supabase/functions/analyze-portfolio/index.ts:98-99 | with non-negative position values and volatilities in [lo, hi], the weighted NAV lies between lo * NAV and hi * NAV |
| RiskCore.PortfolioVolatilityBetween | supabase/functions/analyze-portfolio/index.ts:98-115 | the portfolio volatility is a NAV-weighted mean, so it lies between the smallest and largest asset volatility |
| RiskCore.DiversificationScoreOf | supabase/functions/analyze-portfolio/index.ts:55-74 | the reference score is 0 for zero total value and always in [0, 100] |
| RiskCore.UnseenTypeHasNoValue | supabase/functions/analyze-portfolio/index.ts:61-64 | a type that never appears has no grouped value |
| RiskCore.GroupByType | supabase/functions/analyze-portfolio/index.ts:59-64 | the typeWeights dictionary has exactly the distinct types, in first-appearance order, as keys; each key maps to the total value * quantity of its type |
| RiskCore.DiversificationScore | supabase/functions/analyze-portfolio/index.ts:55-74 | the dictionary-and-accumulator method computes exactly the reference score clamp(0, 100, round((1 - HHI) K)), and 0 for zero total value |
| RiskCore.SingleTypeGroups | supabase/functions/analyze-portfolio/index.ts:61-64 | when all assets share one type, that type is the only key and holds the whole value |
| RiskCore.SingleTypeHhi | supabase/functions/analyze-portfolio/index.ts:66-70 | a portfolio held in one type has HHI 1 |
| RiskCore.SingleTypeScoresZero | supabase/functions/analyze-portfolio/index.ts:55-74 | a portfolio held in one type scores 0 for any scale K |
| RiskCore.TwoTypeGroups | supabase/functions/rebalance-portfolio/index.ts:44-47 | two assets of different types form two keys, each holding its own value |
| RiskCore.TwoEqualTypesHhi | supabase/functions/rebalance-portfolio/index.ts:49-54 | two equally valued types give HHI 1/2 |
| RiskCore.TwoEqualTypesScore | supabase/functions/rebalance-portfolio/index.ts:58 | two equally valued types score 63 with K = 125 and 68 with K = 135 |
| AnalyzePortfolio.Volatility | supabase/functions/analyze-portfolio/index.ts:15-23 | the lookup is total: the seven listed types get their table value, any other type gets 0.20; every result lies in [0.005, 0.95] |
| AnalyzePortfolio.TierMatchesLiquidNav | supabase/functions/analyze-portfolio/index.ts:101-110 | a record is labelled "High" exactly when its type is stock, crypto, cash or bond, and the liquid NAV is the total value of the records labelled High |
| AnalyzePortfolio.QuantityOrOne | supabase/functions/analyze-portfolio/index.ts:96 | a zero quantity counts as one unit; any other quantity is kept |
| AnalyzePortfolio.ZeroQuantityIsOneUnit | supabase/functions/analyze-portfolio/index.ts:94-96 | a zero-quantity asset's position value is its simulated price |
| AnalyzePortfolio.ValueAsset | supabase/functions/analyze-portfolio/index.ts:91-111 | a record keeps its input asset and gets the table volatility; for a non-negative price and a shock in [-1, 1] the simulated price lies within base * (1 + 0.05 dt ± vol sqrt(dt)); total value = price * (quantity or 1); the tier is that of its type |
| AnalyzePortfolio.ValuePortfolio | supabase/functions/analyze-portfolio/index.ts:87-112 | the loop yields the processed records and the sums of total value, value * volatility and liquid value over them |
| AnalyzePortfolio.LiquidityRatio | supabase/functions/analyze-portfolio/index.ts:126 | zero for a non-positive NAV; otherwise ratio * NAV = liquid NAV * 100 |
| AnalyzePortfolio.LiquidPartOfTotal | supabase/functions/analyze-portfolio/index.ts:98-103 | with non-negative position values, 0 ≤ liquid NAV ≤ NAV |
| AnalyzePortfolio.AllLiquidSum | supabase/functions/analyze-portfolio/index.ts:102-103 | when every asset is liquid, liquid NAV = NAV |
| AnalyzePortfolio.LiquidityRatioPercent | supabase/functions/analyze-portfolio/index.ts:126 | with non-negative position values, the liquidity ratio lies in [0, 100] |
| AnalyzePortfolio.AllLiquidRatio | supabase/functions/analyze-portfolio/index.ts:126 | an all-liquid portfolio with positive NAV has liquidity ratio 100 |
| AnalyzePortfolio.TradingDayRootBound | supabase/functions/analyze-portfolio/index.ts:40-45 | sqrt(1/252) is below 0.07 |
| AnalyzePortfolio.PositionValueNonNegative | supabase/functions/analyze-portfolio/index.ts:39-46 | a one-day move with a shock in [-1, 1] keeps a non-negative price non-negative, so position values stay non-negative |
| AnalyzePortfolio.ProcessedValuesNonNegative | supabase/functions/analyze-portfolio/index.ts:91-112 | under valid shocks, non-negative prices and quantities give non-negative position values throughout |
| AnalyzePortfolio.PortfolioVolatilityInSurface | supabase/functions/analyze-portfolio/index.ts:115 | for such a portfolio with positive NAV the portfolio volatility lies in [0.005, 0.95] |
| AnalyzePortfolio.ProcessedKeepsAssets | supabase/functions/analyze-portfolio/index.ts:105-116 | the processed records carry the input assets unchanged, so the diversification score sees the input value and quantity |
| AnalyzePortfolio.AnalyzePortfolio | supabase/functions/analyze-portfolio/index.ts:87-126 | the metrics are: NAV = sum of position values; volatility = weighted NAV / NAV; diversification = score of the input assets with K = 135, in [0, 100] and independent of the shocks; Sharpe at 0.08; VaR; liquidity ratio |
| AnalyzePortfolio.CashOnlyPortfolio | supabase/functions/analyze-portfolio/index.ts:87-126 | a cash-only portfolio with positive NAV has diversification 0, volatility 0.005 and liquidity ratio 100 |
| RebalancePortfolio.Volatility | supabase/functions/rebalance-portfolio/index.ts:78-87 | the six listed types get their table value, anything else gets 0.20; results lie in [0.005, 0.95] |
| RebalancePortfolio.CollectiblesFallBack | supabase/functions/rebalance-portfolio/index.ts:78-87 | collectibles have no entry here and get 0.20 |
| RebalancePortfolio.ValueAsset | supabase/functions/rebalance-portfolio/index.ts:87-102 | a record keeps its input asset and gets this table's volatility; for a non-negative price and a shock in [-1, 1] the simulated price lies within base * (1 + 0.05 dt ± vol sqrt(dt)); total value = price * quantity, with no default |
| RebalancePortfolio.ValuePortfolio | supabase/functions/rebalance-portfolio/index.ts:73-103 | the loop yields the processed records, the NAV and the volatility-weighted NAV over them |
| RebalancePortfolio.ZeroQuantityIsWorthless | supabase/functions/rebalance-portfolio/index.ts:92 | a zero quantity gives a zero position value here |
| RebalancePortfolio.Evaluate | supabase/functions/rebalance-portfolio/index.ts:73-116 | the records keep input order and length; NAV = sum of position values; volatility = weighted NAV / NAV; diversification = score of the input assets with K = 125, in [0, 100]; Sharpe at 0.08; VaR is non-negative when NAV and volatility are |
| RebalancePortfolio.TwoEqualClassesScore63 | supabase/functions/rebalance-portfolio/index.ts:49-58 | two equally valued classes score round(62.5) = 63 |
| GoalCard.IconsTellTypesApart | src/components/goals/GoalCard.tsx:16-28 | two listed goal types show the same icon only if they are the same type; the Target icon shows exactly for emergency goals and unlisted types |
| GoalCard.Progress | src/components/goals/GoalCard.tsx:29-31 | 0 for a non-positive target; 100 once the target is reached; below the target, the whole percentage within 0.5 of current / target * 100; never above 100, non-negative for a non-negative amount |
| GoalCard.ProgressMonotone | src/components/goals/GoalCard.tsx:29-31 | saving more never lowers the progress |
| GoalCard.Tier | src/components/goals/GoalCard.tsx:33-45 | the tier is the number of thresholds (25, 50, 75) reached, at most 3 |
| GoalCard.StatusColor | src/components/goals/GoalCard.tsx:33-38 | the colour classes are the entry of the progress's tier (thresholds 25, 50, 75) |
| GoalCard.StatusText | src/components/goals/GoalCard.tsx:40-45 | the label is the entry of the progress's tier, from "Needs Attention" to "Ahead of Schedule" |
| GoalCard.TextAndColorAgree | src/components/goals/GoalCard.tsx:33-45 | two progress values share a text iff they share a colour iff they share a tier |
| GoalCard.TierMonotone | src/components/goals/GoalCard.tsx:33-45 | raising progress never lowers the tier |
| GoalCard.CardStatusOf | src/components/goals/GoalCard.tsx:28-45 | the card shows IconFor(goal type) and Progress(current, target); text and colour belong to the tier of that progress; a goal at or past its target shows "Ahead of Schedule" |
| FinancialData.NetWorth | src/hooks/useFinancialData.tsx:28 | 0 without accounts; never negative when no balance is |
| FinancialData.NetWorthAdditive | src/hooks/useFinancialData.tsx:28 | net worth over two groups of accounts is the sum of their net worths |
| FinancialData.GoalsProgress | src/hooks/useFinancialData.tsx:40-42 | 0 for a non-positive total target; otherwise within 0.5 of totalCurrent / totalTarget * 100; in [0, 100] when nothing is over-saved |
| FinancialData.GoalsProgressNotCapped | src/hooks/useFinancialData.tsx:42 | unlike the goal card, a goal saved 150% reports 150 |
| FinancialData.Income | src/hooks/useFinancialData.tsx:57-59 | 0 when no transaction is income; never negative for non-negative amounts |
| FinancialData.Expenses | src/hooks/useFinancialData.tsx:61-63 | 0 when no transaction is an expense; never negative for non-negative amounts |
| FinancialData.MonthlySavings | src/hooks/useFinancialData.tsx:65 | with non-negative amounts, savings never exceed income; without expense rows they equal income |
| FinancialData.SumOfTypeAppend | src/hooks/useFinancialData.tsx:57-63 | the per-type sum distributes over concatenation |
| FinancialData.SavingsAdditive | src/hooks/useFinancialData.tsx:57-65 | savings over two batches of transactions add up |
| FinancialData.SavingsOneMore | src/hooks/useFinancialData.tsx:57-65 | one more income of a raises savings by a; one more expense lowers them by a; any other type leaves them unchanged |
| FinancialData.NeutralTransactions | src/hooks/useFinancialData.tsx:57-65 | transactions that are neither income nor expense give zero income, expenses and savings |
| FinancialData.Summarize | src/hooks/useFinancialData.tsx:28-79 | netWorth, goalsProgress and monthlySavings are the three folds over the fetched rows; activeGoals is the number of goal rows; monthlyChange is 2.5 and savingsTargetProgress is 15; empty inputs give 0 net worth, progress and savings |
| GoalAnalysis.PercentIncrease | src/components/goals/GoalAnalysisDialog.tsx:51 | has no value exactly when the current amount is 0; otherwise pct * current = (projected - current) * 100, non-negative when projected ≥ current > 0 |
| GoalAnalysis.ProjectionFor | src/components/goals/GoalAnalysisDialog.tsx:39-60 | the row's label is kept; amountToSave = contribution * n; projected = month-by-month compounding at 0.08/12 with contribution; gain = projected - invested |
| GoalAnalysis.ProjectionHorizons | src/components/goals/GoalAnalysisDialog.tsx:30-55 | the rows are 3, 6, 12, 24, 60 and 120 months, in order, with their labels and amounts to save |
| GoalAnalysis.GainNonNegative | src/components/goals/GoalAnalysisDialog.tsx:50-59 | non-negative amount and contribution give a non-negative gain and growth percentage |
| Jailbreak.JailbreakChallenge.constructor | src/pages/JailbreakChallenge.tsx:13-16 | the page starts at step 1 with no reason, not loading and no impact |
| Jailbreak.ProceedButtonConsistent | src/pages/JailbreakChallenge.tsx:190-199 | on a valid page "Processing..." shows exactly while loading, and the button is then disabled; the withdrawal label shows only on an enabled button at step 3; at step 1 the button is enabled exactly once a listed reason is chosen |
| Jailbreak.JailbreakChallenge.SelectReason | src/pages/JailbreakChallenge.tsx:123-133 | choosing a reason changes only the reason and enables proceed |
| Jailbreak.JailbreakChallenge.Proceed | src/pages/JailbreakChallenge.tsx:33-48 | steps 1 and 2 advance by one; step 3 stays, starts loading and sends a request for the goal's full amount with the chosen reason; a request is sent iff the step was 3 |
| Jailbreak.JailbreakChallenge.FinishWithdrawal | src/pages/JailbreakChallenge.tsx:50-70 | loading is reset on success and on failure; success records the impact and navigates to /goals |
| Jailbreak.JailbreakChallenge.Cancel | src/pages/JailbreakChallenge.tsx:74-81 | cancel navigates to /goals and changes no step, reason or loading state |
| Jailbreak.ConfirmFlow | src/pages/JailbreakChallenge.tsx:33-48 | a reason and three proceeds send a request for the goal's id and full amount with that reason |
| Numeric.Round | supabase/functions/analyze-goal/index.ts:166-171 | Math.round(x) is the integer r with x - 0.5 < r ≤ x + 0.5 |
| Numeric.Clamp | supabase/functions/analyze-portfolio/index.ts:73 | max(lo, min(hi, x)): lo below the range, hi above it, x inside it |
| Numeric.FutureValueIsCompounding | src/components/goals/GoalAnalysisDialog.tsx:46-48 | the closed form p (1+r)^n + c ((1+r)^n - 1) / r equals month-by-month compounding with a level payment |

## Left out

- The Gemini calls of all three edge functions are not modelled: prompt building, `fetch`, cleanup of the JSON reply and the fallback texts. The same goes for `serve`, CORS, `req.json()`, the 500 error responses, toasts and console output.
- `Math.random()` is not modelled; shocks are inputs. `Math.sqrt` results are inputs related to their squares only where a lemma needs it (`TradingDayRootBound`).
- Floating point is not modelled: rounding error, `NaN`, `Infinity` and `-0`. In particular, `percentIncrease` for a zero current amount is `Infinity` or `NaN` in the dialog and `None` here.
- Output formatting (`toFixed`, `toLocaleString`, the `%` strings) is not modelled.
- GoalProjection.RequiredMonthly: takes a whole number of months, floor(years * 12), and requires a positive rate and month count. The edge function raises to the fractional power years * 12. Its only call site passes a 12% rate and a horizon of at least one year.
- GoalProjection.InflationAdjustedTarget: compounds over whole years, floor(months / 12). The edge function uses the fractional power `yearsToGoal`.
- The date arithmetic behind `yearsToGoal` is not modelled; `AnalyzeGoal` takes the elapsed years as input.
- AnalyzePortfolio.QuantityOrOne: covers only a zero quantity. JavaScript's `||` also replaces a missing or `NaN` quantity, which a `real` cannot be. Likewise, `|| 0.20` on an unlisted type is modelled; prototype property names (such as `constructor`) that a plain JS object would answer are not.
- The insertion sort stands in for `Array.prototype.sort` with a numeric comparator. Only its result, ascending and a permutation, is claimed.
- `Object.values` order in the diversification score: the model sums the keys in first-appearance order. JavaScript lists integer-like keys first, which changes only the order of the additions.
- The Supabase queries and their filters (user, active status, this month) are not modelled; the folds take the rows they return. A `null` result is the empty sequence. `Number(...)` conversions are not modelled.
- The "No Goal Selected" view that the withdrawal page shows when it is opened without a goal is not modelled: `JailbreakChallenge` is always constructed with a goal.
- React's asynchronous state updates and rendering are not modelled. In `JailbreakChallenge`, the remote call is split into `Proceed` (which returns the request) and `FinishWithdrawal` (which takes the outcome). The `process-jailbreak` function and the impact text it returns are not part of this model.
