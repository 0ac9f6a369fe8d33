/**
 * The dashboard figures computed from the fetched rows: net worth over the
 * accounts, overall progress over the active goals, and this month's savings
 * as income minus expenses. The queries themselves (user, active-status and
 * month filters) are not modelled: the functions take the rows they return.
 */
module FinancialData {
  import opened Numeric

  /** A row of `goals` (already filtered to status "active"). */
  datatype GoalRow = GoalRow(targetAmount: real, currentAmount: real)

  /** A row of `transactions` (already filtered to this month). */
  datatype TransactionRow = TransactionRow(amount: real, transactionType: string)

  /** Mocked figures the dashboard always shows. */
  const MonthlyChange: real := 2.5
  const SavingsTargetProgress: int := 15

  /**
   * `accounts.reduce((sum, acc) => sum + acc.balance, 0)`: 0 without accounts,
   * and never negative when no balance is.
   */
  function NetWorth(balances: seq<real>): (worth: real)
    ensures |balances| == 0 ==> worth == 0.0
    ensures (forall i :: 0 <= i < |balances| ==> balances[i] >= 0.0) ==> worth >= 0.0
    decreases |balances|
  {
    if |balances| == 0 then 0.0 else NetWorth(balances[..|balances| - 1]) + balances[|balances| - 1]
  }

  /** Net worth over two groups of accounts is the sum of their net worths. */
  lemma {:induction false} NetWorthAdditive(a: seq<real>, b: seq<real>)
    ensures NetWorth(a + b) == NetWorth(a) + NetWorth(b)
    decreases |b|
  {
    if |b| > 0 {
      var ab := a + b;
      assert ab[..|ab| - 1] == a + b[..|b| - 1];
      NetWorthAdditive(a, b[..|b| - 1]);
    } else {
      assert a + b == a;
    }
  }

  function TotalTarget(goals: seq<GoalRow>): real
    decreases |goals|
  {
    if |goals| == 0 then 0.0 else TotalTarget(goals[..|goals| - 1]) + goals[|goals| - 1].targetAmount
  }

  function TotalCurrent(goals: seq<GoalRow>): real
    decreases |goals|
  {
    if |goals| == 0 then 0.0 else TotalCurrent(goals[..|goals| - 1]) + goals[|goals| - 1].currentAmount
  }

  /**
   * `totalTarget > 0 ? Math.round(totalCurrent / totalTarget * 100) : 0`:
   * the rounded overall percentage, with no cap at 100.
   */
  function GoalsProgress(goals: seq<GoalRow>): (p: int)
    ensures TotalTarget(goals) <= 0.0 ==> p == 0
    ensures TotalTarget(goals) > 0.0 ==>
              p as real - 0.5 <= TotalCurrent(goals) / TotalTarget(goals) * 100.0 < p as real + 0.5
    ensures TotalTarget(goals) > 0.0 && 0.0 <= TotalCurrent(goals) <= TotalTarget(goals) ==> 0 <= p <= 100
  {
    var totalTarget := TotalTarget(goals);
    var totalCurrent := TotalCurrent(goals);
    if totalTarget > 0.0 then
      PercentOf(totalCurrent, totalTarget);
      Round(totalCurrent / totalTarget * 100.0)
    else 0
  }

  /** Unlike the goal card, the dashboard does not cap progress: a goal saved 150% shows 150. */
  lemma GoalsProgressNotCapped()
    ensures GoalsProgress([GoalRow(100.0, 150.0)]) == 150
  {
    var goals := [GoalRow(100.0, 150.0)];
    assert goals[..0] == [];
    assert TotalTarget(goals) == 100.0;
    assert TotalCurrent(goals) == 150.0;
  }

  /**
   * Sum of the amounts of the transactions of one type: `filter` then
   * `reduce`. It is 0 when no transaction has the type, and never negative
   * when no amount is.
   */
  function SumOfType(txs: seq<TransactionRow>, transactionType: string): (total: real)
    ensures (forall i :: 0 <= i < |txs| ==> txs[i].transactionType != transactionType) ==> total == 0.0
    ensures (forall i :: 0 <= i < |txs| ==> txs[i].amount >= 0.0) ==> total >= 0.0
    decreases |txs|
  {
    if |txs| == 0 then 0.0
    else
      var last := txs[|txs| - 1];
      SumOfType(txs[..|txs| - 1], transactionType) + (if last.transactionType == transactionType then last.amount else 0.0)
  }

  /** This month's income: 0 without income rows, never negative for non-negative amounts. */
  function Income(txs: seq<TransactionRow>): (income: real)
    ensures (forall i :: 0 <= i < |txs| ==> txs[i].transactionType != "income") ==> income == 0.0
    ensures (forall i :: 0 <= i < |txs| ==> txs[i].amount >= 0.0) ==> income >= 0.0
  {
    SumOfType(txs, "income")
  }

  /** This month's expenses: 0 without expense rows, never negative for non-negative amounts. */
  function Expenses(txs: seq<TransactionRow>): (expenses: real)
    ensures (forall i :: 0 <= i < |txs| ==> txs[i].transactionType != "expense") ==> expenses == 0.0
    ensures (forall i :: 0 <= i < |txs| ==> txs[i].amount >= 0.0) ==> expenses >= 0.0
  {
    SumOfType(txs, "expense")
  }

  /**
   * `income - expenses`: with non-negative amounts savings never exceed the
   * income, and without expense rows they are the whole income.
   */
  function MonthlySavings(txs: seq<TransactionRow>): (savings: real)
    ensures (forall i :: 0 <= i < |txs| ==> txs[i].amount >= 0.0) ==> savings <= Income(txs)
    ensures (forall i :: 0 <= i < |txs| ==> txs[i].transactionType != "expense") ==> savings == Income(txs)
  {
    Income(txs) - Expenses(txs)
  }

  /** One more transaction adds its amount exactly when it has the type. */
  lemma SumOfTypeSnoc(txs: seq<TransactionRow>, t: TransactionRow, transactionType: string)
    ensures SumOfType(txs + [t], transactionType)
         == SumOfType(txs, transactionType) + (if t.transactionType == transactionType then t.amount else 0.0)
  {
    assert (txs + [t])[..|txs|] == txs;
  }

  /** Summing by type distributes over concatenation. */
  lemma {:induction false} SumOfTypeAppend(a: seq<TransactionRow>, b: seq<TransactionRow>, transactionType: string)
    ensures SumOfType(a + b, transactionType) == SumOfType(a, transactionType) + SumOfType(b, transactionType)
    decreases |b|
  {
    if |b| > 0 {
      var init := b[..|b| - 1];
      var last := b[|b| - 1];
      assert b == init + [last];
      assert a + b == (a + init) + [last];
      SumOfTypeAppend(a, init, transactionType);
      SumOfTypeSnoc(a + init, last, transactionType);
      SumOfTypeSnoc(init, last, transactionType);
    } else {
      assert a + b == a;
    }
  }

  /** Savings over two batches of transactions is the sum of their savings. */
  lemma SavingsAdditive(a: seq<TransactionRow>, b: seq<TransactionRow>)
    ensures MonthlySavings(a + b) == MonthlySavings(a) + MonthlySavings(b)
  {
    SumOfTypeAppend(a, b, "income");
    SumOfTypeAppend(a, b, "expense");
  }

  /**
   * One more transaction of amount x raises savings by x when it is income,
   * lowers them by x when it is an expense, and leaves them alone otherwise
   * (transfers, investments, anything else).
   */
  lemma SavingsOneMore(txs: seq<TransactionRow>, t: TransactionRow)
    ensures t.transactionType == "income" ==> MonthlySavings(txs + [t]) == MonthlySavings(txs) + t.amount
    ensures t.transactionType == "expense" ==> MonthlySavings(txs + [t]) == MonthlySavings(txs) - t.amount
    ensures t.transactionType != "income" && t.transactionType != "expense" ==>
              MonthlySavings(txs + [t]) == MonthlySavings(txs)
  {
    assert (txs + [t])[..|txs|] == txs;
  }

  /** Transactions that are neither income nor expense do not move savings. */
  lemma {:induction false} NeutralTransactions(txs: seq<TransactionRow>)
    requires forall i :: 0 <= i < |txs| ==> txs[i].transactionType != "income" && txs[i].transactionType != "expense"
    ensures Income(txs) == 0.0 && Expenses(txs) == 0.0 && MonthlySavings(txs) == 0.0
    decreases |txs|
  {
    if |txs| > 0 {
      NeutralTransactions(txs[..|txs| - 1]);
    }
  }

  /** The object `queryFn` resolves to. */
  datatype Summary = Summary(
    netWorth: real,
    monthlyChange: real,
    goalsProgress: int,
    activeGoals: nat,
    monthlySavings: real,
    savingsTargetProgress: int)

  function Summarize(balances: seq<real>, goals: seq<GoalRow>, txs: seq<TransactionRow>): (s: Summary)
    ensures s.netWorth == NetWorth(balances)
    ensures s.goalsProgress == GoalsProgress(goals)
    ensures s.monthlySavings == MonthlySavings(txs)
    ensures s.activeGoals == |goals|
    ensures s.monthlyChange == 2.5 && s.savingsTargetProgress == 15
    ensures |balances| == 0 ==> s.netWorth == 0.0
    ensures |goals| == 0 ==> s.goalsProgress == 0
    ensures |txs| == 0 ==> s.monthlySavings == 0.0
  {
    Summary(NetWorth(balances), MonthlyChange, GoalsProgress(goals), |goals|, MonthlySavings(txs), SavingsTargetProgress)
  }
}
