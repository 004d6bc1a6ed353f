/** The dashboard's goal progress calculator and the manual balance
    operations on a goal's `saved` amount (js/app.js). */
module GoalProgress {
  import opened Calendar
  import opened Records
  import opened Selection
  import opened TransactionFilters

  /** The goal types the dashboard distinguishes. */
  datatype GoalType = ExpenseLimit | Savings | Investment | DebtPayment | Unrecognized

  /** `goal.type || 'savings'` followed by the `switch`: an absent (empty)
      type counts as savings, an unknown one takes the default branch. */
  function DashboardGoalType(raw: string): (k: GoalType)
    ensures raw == "" ==> k == Savings
    ensures k == ExpenseLimit <==> raw == "expense_limit"
    ensures k == Unrecognized <==>
              raw !in {"", "expense_limit", "savings", "investment", "debt_payment"}
  {
    if raw == "expense_limit" then ExpenseLimit
    else if raw == "savings" || raw == "" then Savings
    else if raw == "investment" then Investment
    else if raw == "debt_payment" then DebtPayment
    else Unrecognized
  }

  /** `target > 0 ? (current / target) * 100 : 0`, exactly. */
  function Percent(current: int, target: int): (p: real)
    ensures target > 0 ==> p * (target as real) == (current as real) * 100.0
    ensures target <= 0 ==> p == 0.0
    ensures p >= 100.0 <==> target > 0 && current >= target
  {
    if target > 0 then
      var q := (current as real) / (target as real);
      assert q * (target as real) == current as real;
      q * 100.0
    else 0.0
  }

  /** Past a positive target the percentage is strictly above 100. */
  lemma PercentAboveHundred(current: int, target: int)
    requires 0 < target < current
    ensures Percent(current, target) > 100.0
  {
    var p, t := Percent(current, target), target as real;
    assert p * t == (current as real) * 100.0;
    assert (current as real) * 100.0 > t * 100.0;
  }

  /** The message under a goal; amounts are shown formatted as currency. */
  datatype Message =
    | Overspent(excess: int)                   // "Você gastou X a mais que o planejado"
    | MaySpend(left: int)                      // "Ainda pode gastar X"
    | SavedSoFar(amount: int)                  // "Parabéns! Você economizou X"
    | InvestedFor(amount: int, goalName: string) // "Você já guardou X para <name>"
    | DebtCleared                              // "Parabéns! Você pagou toda a dívida"
    | GoalCompleted                            // "Parabéns! Você completou a meta"
    | StillMissing(left: int)                  // "Faltam X para ..."

  /** What `calculateGoalProgress` returns (icon and colour classes left out). */
  datatype Progress = Progress(
    current: int,
    target: int,
    percent: real,
    status: string,
    message: Message,
    showAddButton: bool)

  /** The status label per goal type, once the goal is reached or not. */
  function StatusLabel(k: GoalType, reached: bool): string {
    match k
    case ExpenseLimit => if reached then "Limite ultrapassado!" else "Dentro do limite"
    case Savings => if reached then "Meta atingida! \U{1F389}" else "Economizando..."
    case Investment => if reached then "Meta de investimento atingida! \U{1F680}" else "Guardando..."
    case DebtPayment => if reached then "Dívida quitada! \U{1F38A}" else "Pagando dívida..."
    case Unrecognized => if reached then "Meta atingida! \U{1F389}" else "Em progresso..."
  }

  /** The spending an expense-limit goal tracks: this month's outcomes in the
      goal's category, plus every card's `used` when the category is the
      credit-card one. */
  function MonthSpending(goal: Goal, txs: seq<Transaction>, cards: seq<Card>, today: Date): int {
    Total(CurrentMonthTransactions(txs, today), OutcomesIn(goal.category))
    + (if goal.category == CreditCardCategory then TotalCardUsed(cards) else 0)
  }

  /** `calculateGoalProgress(goal)`, with the state's transactions and cards
      and the clock's date passed in. */
  function CalculateGoalProgress(goal: Goal, txs: seq<Transaction>, cards: seq<Card>, today: Date): (p: Progress)
    ensures p.target == goal.amount
    ensures DashboardGoalType(goal.goalType) == ExpenseLimit ==>
              p.current == MonthSpending(goal, txs, cards, today) && !p.showAddButton
    ensures DashboardGoalType(goal.goalType) != ExpenseLimit ==>
              p.current == SavedOrZero(goal) && p.showAddButton
    ensures goal.amount > 0 ==> p.percent * (goal.amount as real) == (p.current as real) * 100.0
    ensures goal.amount <= 0 ==> p.percent == 0.0
    ensures p.status == StatusLabel(DashboardGoalType(goal.goalType), p.current >= goal.amount && goal.amount > 0)
    ensures DashboardGoalType(goal.goalType) == ExpenseLimit ==>
              p.message == (if p.percent >= 100.0 then Overspent(p.current - p.target) else MaySpend(p.target - p.current))
    ensures DashboardGoalType(goal.goalType) != ExpenseLimit && p.percent < 100.0 ==>
              p.message == StillMissing(p.target - p.current)
    ensures DashboardGoalType(goal.goalType) != ExpenseLimit && p.percent >= 100.0 ==>
              p.message == match DashboardGoalType(goal.goalType)
                           case Savings => SavedSoFar(p.current)
                           case Investment => InvestedFor(p.current, goal.name)
                           case DebtPayment => DebtCleared
                           case _ => GoalCompleted
  {
    var k := DashboardGoalType(goal.goalType);
    var target := goal.amount;
    var current := if k == ExpenseLimit then MonthSpending(goal, txs, cards, today) else SavedOrZero(goal);
    var percent := Percent(current, target);
    var reached := percent >= 100.0;
    var message :=
      match k
      case ExpenseLimit => if reached then Overspent(current - target) else MaySpend(target - current)
      case Savings => if reached then SavedSoFar(current) else StillMissing(target - current)
      case Investment => if reached then InvestedFor(current, goal.name) else StillMissing(target - current)
      case DebtPayment => if reached then DebtCleared else StillMissing(target - current)
      case Unrecognized => if reached then GoalCompleted else StillMissing(target - current);
    Progress(current, target, percent, StatusLabel(k, reached), message, k != ExpenseLimit)
  }

  /** An expense-limit goal never reads `saved`. */
  lemma ExpenseLimitIgnoresSaved(goal: Goal, saved: Option<int>, txs: seq<Transaction>, cards: seq<Card>, today: Date)
    requires DashboardGoalType(goal.goalType) == ExpenseLimit
    ensures CalculateGoalProgress(goal.(saved := saved), txs, cards, today)
            == CalculateGoalProgress(goal, txs, cards, today)
  {
  }

  /** Every other goal type never reads transactions, cards or the date. */
  lemma SavedGoalIgnoresTransactions(goal: Goal, txs: seq<Transaction>, cards: seq<Card>, today: Date,
                                     txs': seq<Transaction>, cards': seq<Card>, today': Date)
    requires DashboardGoalType(goal.goalType) != ExpenseLimit
    ensures CalculateGoalProgress(goal, txs, cards, today) == CalculateGoalProgress(goal, txs', cards', today')
  {
  }

  /** The manual balance operations of the add-value dialog. */
  datatype BalanceOp = AddValue(value: int) | SubtractValue(value: int) | ResetProgress

  /** Applies one balance operation: add and subtract act only on a positive
      value, subtract never goes below 0, reset sets the balance to 0. */
  function ApplyBalanceOp(goal: Goal, op: BalanceOp): (g: Goal)
    ensures g == goal.(saved := g.saved)
    ensures op.AddValue? && op.value > 0 ==> g.saved == Some(SavedOrZero(goal) + op.value)
    ensures op.SubtractValue? && op.value > 0 ==>
              g.saved.Some? && SavedOrZero(g) >= 0
              && (SavedOrZero(g) == 0 || SavedOrZero(g) + op.value == SavedOrZero(goal))
              && (SavedOrZero(g) == 0 <==> op.value >= SavedOrZero(goal))
    ensures op.ResetProgress? ==> g.saved == Some(0)
    ensures !op.ResetProgress? && op.value <= 0 ==> g == goal
  {
    match op
    case AddValue(v) =>
      if v > 0 then goal.(saved := Some(SavedOrZero(goal) + v)) else goal
    case SubtractValue(v) =>
      if v > 0 then
        var rest := SavedOrZero(goal) - v;
        goal.(saved := Some(if rest > 0 then rest else 0))
      else goal
    case ResetProgress =>
      goal.(saved := Some(0))
  }

  /** A non-negative balance stays non-negative under every operation. */
  lemma BalanceStaysNonNegative(goal: Goal, op: BalanceOp)
    requires SavedOrZero(goal) >= 0
    ensures SavedOrZero(ApplyBalanceOp(goal, op)) >= 0
  {
  }

  /** Subtracting what was just added restores a non-negative balance. */
  lemma SubtractUndoesAdd(goal: Goal, v: int)
    requires SavedOrZero(goal) >= 0 && v > 0
    ensures SavedOrZero(ApplyBalanceOp(ApplyBalanceOp(goal, AddValue(v)), SubtractValue(v))) == SavedOrZero(goal)
  {
  }

  /** For goals that show the add button, adding `v > 0` moves the dashboard's
      current value up by exactly `v`; an expense-limit goal is unaffected by
      any balance operation. */
  lemma BalanceOpMovesProgress(goal: Goal, op: BalanceOp, txs: seq<Transaction>, cards: seq<Card>, today: Date)
    ensures DashboardGoalType(goal.goalType) != ExpenseLimit && op.AddValue? && op.value > 0 ==>
              CalculateGoalProgress(ApplyBalanceOp(goal, op), txs, cards, today).current
              == CalculateGoalProgress(goal, txs, cards, today).current + op.value
    ensures DashboardGoalType(goal.goalType) == ExpenseLimit ==>
              CalculateGoalProgress(ApplyBalanceOp(goal, op), txs, cards, today)
              == CalculateGoalProgress(goal, txs, cards, today)
  {
    var g := ApplyBalanceOp(goal, op);
    if DashboardGoalType(goal.goalType) == ExpenseLimit {
      ExpenseLimitIgnoresSaved(goal, g.saved, txs, cards, today);
    }
  }

  /** An expense-limit goal of 500.00 in "Alimentação" with this month's
      outcomes of 300.00 and 250.00 is 110% used and 50.00 over the limit. */
  lemma ExpenseLimitExample()
    ensures
      var today := Date(2024, 2, 15);
      var goal := Goal(1, "Mercado", "Alimentação", 50000, "expense_limit", None);
      var txs := [Transaction(1, "Feira", 30000, Outcome, "Alimentação", Date(2024, 2, 3), "paid"),
                  Transaction(2, "Mercado", 25000, Outcome, "Alimentação", Date(2024, 2, 10), "paid")];
      var p := CalculateGoalProgress(goal, txs, [], today);
      p.current == 55000 && p.percent == 110.0 && p.message == Overspent(5000)
      && p.status == "Limite ultrapassado!" && !p.showAddButton
  {
    var today := Date(2024, 2, 15);
    var goal := Goal(1, "Mercado", "Alimentação", 50000, "expense_limit", None);
    var t1 := Transaction(1, "Feira", 30000, Outcome, "Alimentação", Date(2024, 2, 3), "paid");
    var t2 := Transaction(2, "Mercado", 25000, Outcome, "Alimentação", Date(2024, 2, 10), "paid");
    var txs := [t1, t2];
    MeetsSingle(InMonth(2, Only(2024)));
    assert [t1, t2][..1] == [t1];
    assert CurrentMonthTransactions([t1], today) == [t1];
    assert CurrentMonthTransactions(txs, today) == txs;
    assert Total([t1, t2], OutcomesIn("Alimentação")) == 55000 by {
      assert [t1][..0] == [];
      assert Total([t1], OutcomesIn("Alimentação")) == 30000;
      assert [t1, t2][..1] == [t1];
    }
    assert MonthSpending(goal, txs, [], today) == 55000;
  }

  /** A savings goal of 1000.00 with 1000.00 saved is reached and keeps its add button. */
  lemma SavingsReachedExample()
    ensures
      var goal := Goal(2, "Reserva", "Outros", 100000, "savings", Some(100000));
      var p := CalculateGoalProgress(goal, [], [], Date(2024, 0, 1));
      p.percent == 100.0 && p.status == "Meta atingida! \U{1F389}" && p.showAddButton
  {
  }
}
