/** The dashboard's figures: the month summary, the spending-by-category
    chart data and the numbers shown on each credit card (js/app.js). */
module Dashboard {
  import opened Calendar
  import opened Records
  import opened Selection
  import opened TransactionFilters
  import opened CategoryTable
  import opened GoalProgress

  /** The four summary figures of `renderSummary`. */
  datatype Summary = Summary(income: int, outcome: int, balance: int, outcomePercentage: real)

  /** `renderSummary`: this month's income, this month's outcomes plus every
      card's `used`, their difference, and the share of income committed. */
  function MonthSummary(txs: seq<Transaction>, cards: seq<Card>, today: Date): (s: Summary)
    ensures s.income == Total(CurrentMonthTransactions(txs, today), Incomes)
    ensures s.outcome == Total(CurrentMonthTransactions(txs, today), Outcomes) + TotalCardUsed(cards)
    ensures s.balance == s.income - s.outcome
    ensures s.income > 0 ==> s.outcomePercentage * (s.income as real) == (s.outcome as real) * 100.0
    ensures s.income <= 0 ==> s.outcomePercentage == 0.0
    ensures s.outcomePercentage >= 100.0 <==> s.income > 0 && s.balance <= 0
  {
    var current := CurrentMonthTransactions(txs, today);
    var income := Total(current, Incomes);
    var outcome := Total(current, Outcomes) + TotalCardUsed(cards);
    Summary(income, outcome, income - outcome, Percent(outcome, income))
  }

  /** The category chart's dictionary and the sum of its values, built by
      the two `forEach` loops of `renderCategoryChart`. */
  method CategoryExpenses(txs: seq<Transaction>, cards: seq<Card>, today: Date)
    returns (expenses: Table, total: int)
    ensures DistinctKeys(expenses)
    ensures Keys(expenses) == OutcomeCategories(CurrentMonthTransactions(txs, today))
                              + (if AnyCardInUse(cards) then {CreditCardCategory} else {})
    ensures forall c :: c != CreditCardCategory ==>
              TotalOf(expenses, c) == Total(CurrentMonthTransactions(txs, today), OutcomesIn(c))
    ensures TotalOf(expenses, CreditCardCategory)
            == Total(CurrentMonthTransactions(txs, today), OutcomesIn(CreditCardCategory)) + PositiveCardUsed(cards)
    ensures total == SumTotals(expenses)
    ensures total == Total(CurrentMonthTransactions(txs, today), Outcomes) + PositiveCardUsed(cards)
  {
    var current := CurrentMonthTransactions(txs, today);
    expenses := AccumulateOutcomes(current);
    expenses := AccumulateCards(expenses, cards);
    total := SumTotals(expenses);
  }

  /** With no card carrying a negative `used`, summing the cards in use is
      summing every card. */
  lemma {:induction false} PositiveCardUsedIsTotal(cards: seq<Card>)
    requires forall i :: 0 <= i < |cards| ==> UsedOrZero(cards[i]) >= 0
    ensures PositiveCardUsed(cards) == TotalCardUsed(cards)
    decreases |cards|
  {
    if |cards| > 0 {
      PositiveCardUsedIsTotal(cards[..|cards| - 1]);
    }
  }

  /** The chart's total is the summary's outcome figure as long as no card
      has a negative `used`. */
  lemma ChartTotalIsSummaryOutcome(txs: seq<Transaction>, cards: seq<Card>, today: Date)
    requires forall i :: 0 <= i < |cards| ==> UsedOrZero(cards[i]) >= 0
    ensures SumTotals(WithCards(ByCategory(CurrentMonthTransactions(txs, today)), cards))
            == MonthSummary(txs, cards, today).outcome
  {
    PositiveCardUsedIsTotal(cards);
  }

  /** The numbers `createCardElement` shows. */
  datatype CardFigures = CardFigures(used: int, limit: int, available: int, percent: int)

  /** `Math.round(100 * used / limit)` for `limit > 0`, on exact values:
      the floor of `100 * used / limit + 1/2`. */
  function RoundedPercent(used: int, limit: int): (p: int)
    requires limit > 0
    ensures 2 * limit * p <= 200 * used + limit < 2 * limit * (p + 1)
  {
    (200 * used + limit) / (2 * limit)
  }

  /** The rounded percentage is not negative for a non-negative `used` and
      reaches 100 once `used` reaches the limit. */
  lemma RoundedPercentBounds(used: int, limit: int)
    requires limit > 0
    ensures used >= 0 ==> RoundedPercent(used, limit) >= 0
    ensures used >= limit ==> RoundedPercent(used, limit) >= 100
  {
    var p := RoundedPercent(used, limit);
    if used >= 0 && p < 0 {
      ProductSign(2 * limit, p + 1);
    }
    if used >= limit && p < 100 {
      ProductSign(2 * limit, p - 99);
    }
  }

  lemma ProductSign(a: int, b: int)
    requires a > 0 && b <= 0
    ensures a * b <= 0
  {
  }

  /** `createCardElement`: available is limit minus used; the percentage is
      rounded, capped at 100, and 0 without a positive limit. */
  function CardNumbers(card: Card): (f: CardFigures)
    ensures f.used == UsedOrZero(card) && f.limit == card.limit
    ensures f.available + f.used == f.limit
    ensures f.percent <= 100
    ensures f.limit <= 0 ==> f.percent == 0
    ensures f.used >= 0 ==> f.percent >= 0
    ensures f.limit > 0 && f.used >= f.limit ==> f.percent == 100
    ensures f.limit > 0 && f.percent < 100 ==>
              2 * f.limit * f.percent <= 200 * f.used + f.limit < 2 * f.limit * (f.percent + 1)
  {
    var used := UsedOrZero(card);
    var limit := card.limit;
    var percent :=
      if limit > 0 then
        RoundedPercentBounds(used, limit);
        var p := RoundedPercent(used, limit);
        if p < 100 then p else 100
      else 0;
    CardFigures(used, limit, limit - used, percent)
  }

  /** A card with no limit and 200.00 used shows 0% and -200.00 available. */
  lemma NoLimitCardExample()
    ensures CardNumbers(Card(1, "Nubank", "Mastercard", 0, Some(20000), None, None))
            == CardFigures(20000, 0, -20000, 0)
  {
  }

  /** 333.33 used of a 1000.00 limit rounds to 33%; 666.67 rounds to 67%. */
  lemma RoundingExample()
    ensures CardNumbers(Card(1, "A", "Visa", 100000, Some(33333), None, None)).percent == 33
    ensures CardNumbers(Card(2, "B", "Visa", 100000, Some(66667), None, None)).percent == 67
  {
  }
}
