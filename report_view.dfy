/** The reports page's figures: the six-month expense series, the top
    categories, the category summary, the goal comparison and the colour
    parsing used by its PDF export (js/relatorios.js). */
module ReportView {
  import opened Calendar
  import opened Records
  import opened Selection
  import opened TransactionFilters
  import opened CategoryTable
  import opened PeriodFilter
  import opened GoalProgress
  import opened AppState

  /** The reports page's own `getState`: empty lists when nothing is stored
      or the text does not parse, otherwise each array field, with goals
      falling back to `budgets`. It reads the blob exactly as the dashboard
      does. */
  function ReportState(stored: Stored): (s: Snapshot)
    ensures s == LoadState(stored)
  {
    if stored.Parsed? then
      var goals := if stored.goals.AnArray? then stored.goals.items else ArrayOrEmpty(stored.budgets);
      Snapshot(ArrayOrEmpty(stored.transactions), ArrayOrEmpty(stored.cards), goals)
    else Snapshot([], [], [])
  }

  /** Sum of a list of amounts. */
  function SumOf(xs: seq<int>): int
    decreases |xs|
  {
    if |xs| == 0 then 0 else SumOf(xs[..|xs| - 1]) + xs[|xs| - 1]
  }

  /** `getLast6MonthsData`: for `i = 5` down to `0`, the month `i` months
      before today's and its outcome total. A month is given by its month
      index; its short pt-BR label is left out. */
  method Last6MonthsData(txs: seq<Transaction>, today: Date) returns (months: seq<int>, data: seq<int>)
    ensures |months| == 6 && |data| == 6
    ensures forall k :: 0 <= k < 6 ==> months[k] == MonthIndex(today) - (5 - k)
    ensures forall k :: 0 <= k < 6 ==> data[k] == Total(txs, OutcomesInMonth(months[k]))
  {
    months, data := [], [];
    var i := 5;
    while i >= 0
      invariant -1 <= i <= 5
      invariant |months| == 5 - i && |data| == 5 - i
      invariant forall k :: 0 <= k < |months| ==> months[k] == MonthIndex(today) - (5 - k)
      invariant forall k :: 0 <= k < |data| ==> data[k] == Total(txs, OutcomesInMonth(months[k]))
    {
      var month := MonthIndex(today) - i;
      months := months + [month];
      data := data + [Total(txs, OutcomesInMonth(month))];
      i := i - 1;
    }
  }

  /** Consecutive monthly totals add up to the total over their whole span. */
  lemma {:induction false} SeriesAddsUp(txs: seq<Transaction>, data: seq<int>, first: int)
    requires forall k :: 0 <= k < |data| ==> data[k] == Total(txs, OutcomesInMonth(first + k))
    ensures SumOf(data) == Total(txs, OutcomesInMonths(first, first + |data| - 1))
    decreases |data|
  {
    var n := |data|;
    if n == 0 {
      TotalOfNothing(txs, OutcomesInMonths(first, first - 1));
    } else {
      SeriesAddsUp(txs, data[..n - 1], first);
      TotalSplit(txs, OutcomesInMonths(first, first + n - 1),
                 OutcomesInMonths(first, first + n - 2), OutcomesInMonth(first + n - 1));
    }
  }

  /** With real dates none of which lies after today, the six bars add up to
      the outcome total of the "last 6 months" period. */
  lemma {:induction false} SixMonthsMatchPeriod(txs: seq<Transaction>, today: Date, data: seq<int>)
    requires |data| == 6
    requires forall k :: 0 <= k < 6 ==> data[k] == Total(txs, OutcomesInMonth(MonthIndex(today) - (5 - k)))
    requires ValidDate(today)
    requires forall i :: 0 <= i < |txs| ==> ValidDate(txs[i].date) && DateLe(txs[i].date, today)
    ensures SumOf(data) == Total(FilterTransactionsByPeriod(txs, Last6Months, today), Outcomes)
  {
    SeriesAddsUp(txs, data, MonthIndex(today) - 5);
    LastSixMonthsTotal(txs, today);
  }

  /** With real dates none of which lies after today, the outcome total of
      the "last 6 months" period is the total over the six month indices. */
  lemma {:induction false} LastSixMonthsTotal(txs: seq<Transaction>, today: Date)
    requires ValidDate(today)
    requires forall i :: 0 <= i < |txs| ==> ValidDate(txs[i].date) && DateLe(txs[i].date, today)
    ensures Total(FilterTransactionsByPeriod(txs, Last6Months, today), Outcomes)
            == Total(txs, OutcomesInMonths(MonthIndex(today) - 5, MonthIndex(today)))
  {
    forall i | 0 <= i < |txs| {
      InLastSixMonths(txs[i], today);
    }
    TotalOfKeep(txs, PeriodCriteria(Last6Months, today), Outcomes, OutcomesInMonths(MonthIndex(today) - 5, MonthIndex(today)));
  }

  /** A real outcome dated no later than today passes the "last 6 months"
      test exactly when its month is one of the six. */
  lemma InLastSixMonths(t: Transaction, today: Date)
    requires ValidDate(today) && ValidDate(t.date) && DateLe(t.date, today)
    ensures MeetsAll(t, PeriodCriteria(Last6Months, today)) && Selects(Outcomes, t)
            <==> Selects(OutcomesInMonths(MonthIndex(today) - 5, MonthIndex(today)), t)
  {
    CriteriaMeanPeriod(Last6Months, today, t);
    MonthIndexOrder(t.date, today);
  }

  /** Card spending joins the reports only for the periods that contain today. */
  predicate IncludesCardSpend(p: Period) {
    p == AllTime || p == CurrentMonth
  }

  /** The category dictionary of the reports page: the outcome dictionary
      of the filtered list, with card spending folded in for "all" and
      "current-month". */
  function ReportCategoryTotals(filtered: seq<Transaction>, cards: seq<Card>, period: Period): (es: Table)
    ensures DistinctKeys(es)
    ensures Keys(es) == OutcomeCategories(filtered)
                        + (if IncludesCardSpend(period) && AnyCardInUse(cards) then {CreditCardCategory} else {})
    ensures forall c :: TotalOf(es, c) == Total(filtered, OutcomesIn(c))
                                          + (if IncludesCardSpend(period) && c == CreditCardCategory
                                             then PositiveCardUsed(cards) else 0)
  {
    if IncludesCardSpend(period) then WithCards(ByCategory(filtered), cards) else ByCategory(filtered)
  }

  /** `getTopCategories`: the five largest categories of the dictionary,
      largest first. */
  method TopCategories(filtered: seq<Transaction>, cards: seq<Card>, period: Period) returns (top: Table)
    ensures top == TopEntries(ReportCategoryTotals(filtered, cards, period), 5)
    ensures |top| <= 5 && NonIncreasing(top)
    ensures forall e :: e in top ==> e.total == TotalOf(ReportCategoryTotals(filtered, cards, period), e.category)
    ensures forall c :: c in Keys(ReportCategoryTotals(filtered, cards, period)) ==>
              (exists e :: e in top && e.category == c)
              || (|top| == 5 && forall x :: x in top ==> TotalOf(ReportCategoryTotals(filtered, cards, period), c) <= x.total)
  {
    var expenses := AccumulateOutcomes(filtered);
    if IncludesCardSpend(period) {
      expenses := AccumulateCards(expenses, cards);
    }
    top := TopEntries(expenses, 5);
    TopEntriesShowTotals(expenses, 5);
    TopEntriesLeaveOutSmaller(expenses, 5);
  }

  /** The card spending `getCategorySummary` folds in: for "all" and
      "current-month" when some card has `used > 0`. */
  predicate SummaryTakesCards(cards: seq<Card>, period: Period) {
    IncludesCardSpend(period) && AnyCardInUse(cards)
  }

  /** The summary dictionary as a value, for statements about the result of
      `CategorySummary`. */
  function CreditedSummary(filtered: seq<Transaction>, cards: seq<Card>, period: Period): (es: Table)
    ensures DistinctKeys(es)
    ensures SumTotals(es) == Total(filtered, Outcomes)
                             + (if SummaryTakesCards(cards, period) then TotalCardUsed(cards) else 0)
  {
    if SummaryTakesCards(cards, period)
    then Credit(ByCategory(filtered), CreditCardCategory, TotalCardUsed(cards), 1)
    else ByCategory(filtered)
  }

  /** `getCategorySummary`: the outcome total of the filtered list (without
      card spending) and the `{ total, count }` dictionary, to which the sum of
      every card's `used` is added as one more contribution to the credit-card
      category. */
  method CategorySummary(filtered: seq<Transaction>, cards: seq<Card>, period: Period)
    returns (categoryData: Table, totalExpense: int)
    ensures totalExpense == Total(filtered, Outcomes)
    ensures categoryData == CreditedSummary(filtered, cards, period)
    ensures DistinctKeys(categoryData)
    ensures Keys(categoryData) == OutcomeCategories(filtered)
                                  + (if SummaryTakesCards(cards, period) then {CreditCardCategory} else {})
    ensures forall c :: c != CreditCardCategory ==>
              TotalOf(categoryData, c) == Total(filtered, OutcomesIn(c))
              && CountOf(categoryData, c) == Count(filtered, OutcomesIn(c))
    ensures TotalOf(categoryData, CreditCardCategory)
            == Total(filtered, OutcomesIn(CreditCardCategory))
               + (if SummaryTakesCards(cards, period) then TotalCardUsed(cards) else 0)
    ensures CountOf(categoryData, CreditCardCategory)
            == Count(filtered, OutcomesIn(CreditCardCategory)) + (if SummaryTakesCards(cards, period) then 1 else 0)
    ensures SumTotals(categoryData)
            == totalExpense + (if SummaryTakesCards(cards, period) then TotalCardUsed(cards) else 0)
  {
    totalExpense := Total(filtered, Outcomes);
    categoryData := AccumulateOutcomes(filtered);
    if IncludesCardSpend(period) && AnyCardInUse(cards) {
      categoryData := Credit(categoryData, CreditCardCategory, TotalCardUsed(cards), 1);
    }
  }

  /** The percentage column of the summary table, `total / totalExpense * 100`
      guarded by `totalExpense > 0`. With card spending folded in, the
      category totals add up to more than the total the percentages are taken
      of, so the column adds up to more than 100%. */
  lemma {:induction false} SummarySharesExceedWhole(filtered: seq<Transaction>, cards: seq<Card>, period: Period, categoryData: Table)
    requires categoryData == CreditedSummary(filtered, cards, period)
    requires SummaryTakesCards(cards, period) && TotalCardUsed(cards) > 0
    requires Total(filtered, Outcomes) > 0
    ensures SumTotals(categoryData) > Total(filtered, Outcomes)
    ensures Percent(SumTotals(categoryData), Total(filtered, Outcomes)) > 100.0
  {
    var whole := Total(filtered, Outcomes);
    assert SumTotals(categoryData) == whole + TotalCardUsed(cards);
    PercentAboveHundred(SumTotals(categoryData), whole);
  }

  /** One row of the goals comparison (and of the goal sheets of the Excel
      and PDF exports). */
  datatype GoalComparison = GoalComparison(
    name: string,
    typeLabel: string,
    current: int,
    target: int,
    percent: real,
    status: string)

  /** The comparison's `current`. Unlike the dashboard, an absent or unknown
      type gives 0, `savings` nets incomes against outcomes of the category
      and `investment`/`debt_payment` add up its outcomes. Card spending is
      added for an expense limit on the credit-card category only when
      `withCards` holds: on the page for "all" and "current-month", never in
      the exports. */
  function ReportGoalCurrent(goal: Goal, filtered: seq<Transaction>, cards: seq<Card>, withCards: bool): (current: int)
    ensures goal.goalType == "expense_limit" ==>
              current == Total(filtered, OutcomesIn(goal.category))
                         + (if goal.category == CreditCardCategory && withCards then TotalCardUsed(cards) else 0)
    ensures goal.goalType == "savings" ==>
              current == Total(filtered, IncomesIn(goal.category)) - Total(filtered, OutcomesIn(goal.category))
    ensures goal.goalType in {"investment", "debt_payment"} ==>
              current == Total(filtered, OutcomesIn(goal.category))
    ensures goal.goalType !in {"expense_limit", "savings", "investment", "debt_payment"} ==> current == 0
  {
    var outcome := Total(filtered, OutcomesIn(goal.category));
    if goal.goalType == "expense_limit" then
      outcome + (if goal.category == CreditCardCategory && withCards then TotalCardUsed(cards) else 0)
    else if goal.goalType == "savings" then
      Total(filtered, IncomesIn(goal.category)) - outcome
    else if goal.goalType == "investment" || goal.goalType == "debt_payment" then
      outcome
    else 0
  }

  /** The type column: anything but the three named types reads "Pagamento". */
  function TypeLabel(goalType: string): (shown: string)
    ensures shown in {"Limite", "Economia", "Investimento", "Pagamento"}
    ensures shown == "Pagamento" <==> goalType !in {"expense_limit", "savings", "investment"}
  {
    if goalType == "expense_limit" then "Limite"
    else if goalType == "savings" then "Economia"
    else if goalType == "investment" then "Investimento"
    else "Pagamento"
  }

  /** `renderGoalsComparison`'s row for one goal. */
  function CompareGoal(goal: Goal, filtered: seq<Transaction>, cards: seq<Card>, withCards: bool): (row: GoalComparison)
    ensures row.name == goal.name && row.target == goal.amount
    ensures row.current == ReportGoalCurrent(goal, filtered, cards, withCards)
    ensures row.typeLabel == TypeLabel(goal.goalType)
    ensures goal.amount > 0 ==> row.percent * (goal.amount as real) == (row.current as real) * 100.0
    ensures goal.amount <= 0 ==> row.percent == 0.0
    ensures row.status == (if row.percent >= 100.0 then "Concluída" else "Em progresso")
    ensures row.status == "Concluída" <==> goal.amount > 0 && row.current >= goal.amount
  {
    var current := ReportGoalCurrent(goal, filtered, cards, withCards);
    var percent := Percent(current, goal.amount);
    GoalComparison(goal.name, TypeLabel(goal.goalType), current, goal.amount, percent,
                   if percent >= 100.0 then "Concluída" else "Em progresso")
  }

  /** A goal of unknown type is never completed in the report, whatever it
      has saved, while the dashboard counts its saved amount. */
  lemma UnknownTypeNeverCompletes(goal: Goal, filtered: seq<Transaction>, cards: seq<Card>, withCards: bool,
                                  txs: seq<Transaction>, today: Date)
    requires goal.goalType == "unknown" && goal.amount > 0 && SavedOrZero(goal) >= goal.amount
    ensures CompareGoal(goal, filtered, cards, withCards).status == "Em progresso"
    ensures CalculateGoalProgress(goal, txs, cards, today).percent >= 100.0
  {
  }

  /** For real dates, the "current-month" period keeps the same list as the
      dashboard's current-month filter. */
  lemma {:induction false} CurrentMonthPeriodIsDashboardMonth(txs: seq<Transaction>, today: Date)
    requires ValidDate(today)
    requires forall i :: 0 <= i < |txs| ==> ValidDate(txs[i].date)
    ensures FilterTransactionsByPeriod(txs, CurrentMonth, today) == CurrentMonthTransactions(txs, today)
  {
    var cs := PeriodCriteria(CurrentMonth, today);
    var ds := [InMonth(today.month, Only(today.year))];
    MeetsSingle(ds[0]);
    forall i | 0 <= i < |txs| ensures MeetsAll(txs[i], cs) <==> MeetsAll(txs[i], ds) {
      CriteriaMeanPeriod(CurrentMonth, today, txs[i]);
      MonthIndexOrder(txs[i].date, today);
    }
    KeepAgree(txs, cs, ds);
  }

  /** For real dates, an expense limit compared over "current-month" on the
      reports page shows the dashboard's current value. */
  lemma ReportMatchesDashboard(goal: Goal, txs: seq<Transaction>, cards: seq<Card>, today: Date)
    requires goal.goalType == "expense_limit"
    requires ValidDate(today)
    requires forall i :: 0 <= i < |txs| ==> ValidDate(txs[i].date)
    ensures CompareGoal(goal, FilterTransactionsByPeriod(txs, CurrentMonth, today), cards,
                        IncludesCardSpend(CurrentMonth)).current
            == CalculateGoalProgress(goal, txs, cards, today).current
  {
    CurrentMonthPeriodIsDashboardMonth(txs, today);
  }

  /** A colour as red, green and blue components. */
  datatype Rgb = Rgb(r: int, g: int, b: int)

  /** The colour used when the configured one does not parse (`#db2777`). */
  const DefaultColour: Rgb := Rgb(219, 39, 119)

  predicate InByteRange(c: Rgb) {
    0 <= c.r < 256 && 0 <= c.g < 256 && 0 <= c.b < 256
  }

  /** `[a-f\d]` under the `i` flag: an ASCII digit or a letter a-f in either case. */
  predicate IsHexDigit(ch: char) {
    '0' <= ch <= '9' || 'a' <= ch <= 'f' || 'A' <= ch <= 'F'
  }

  function DigitValue(ch: char): (v: int)
    requires IsHexDigit(ch)
    ensures 0 <= v < 16
  {
    if '0' <= ch <= '9' then ch as int - '0' as int
    else if 'a' <= ch <= 'f' then ch as int - 'a' as int + 10
    else ch as int - 'A' as int + 10
  }

  /** The text after an optional leading `#`. */
  function HexBody(s: string): (h: string)
    ensures s == h || s == "#" + h
  {
    if |s| > 0 && s[0] == '#' then s[1..] else s
  }

  /** `/^#?([a-f\d]{2})([a-f\d]{2})([a-f\d]{2})$/i` matches. */
  predicate IsHexColour(s: string) {
    var h := HexBody(s);
    |h| == 6 && forall i :: 0 <= i < 6 ==> IsHexDigit(h[i])
  }

  /** `parseInt` of the two digits at `i`. */
  function PairValue(h: string, i: nat): (v: int)
    requires i + 1 < |h| && IsHexDigit(h[i]) && IsHexDigit(h[i + 1])
    ensures 0 <= v < 256
  {
    16 * DigitValue(h[i]) + DigitValue(h[i + 1])
  }

  /** `hexToRgb`: the three digit pairs, or the default colour. */
  function HexToRgb(s: string): (c: Rgb)
    ensures InByteRange(c)
    ensures !IsHexColour(s) ==> c == DefaultColour
  {
    if IsHexColour(s) then
      var h := HexBody(s);
      Rgb(PairValue(h, 0), PairValue(h, 2), PairValue(h, 4))
    else DefaultColour
  }

  /** Lower-case hex digit of a value below 16. */
  function HexChar(v: int): (ch: char)
    requires 0 <= v < 16
    ensures IsHexDigit(ch) && DigitValue(ch) == v
  {
    if v < 10 then ('0' as int + v) as char else ('a' as int + v - 10) as char
  }

  /** A colour written as `#rrggbb` in lower case. */
  function ToHex(c: Rgb): (s: string)
    requires InByteRange(c)
    ensures |s| == 7 && s[0] == '#'
    ensures IsHexColour(s)
  {
    "#" + [HexChar(c.r / 16), HexChar(c.r % 16), HexChar(c.g / 16), HexChar(c.g % 16),
           HexChar(c.b / 16), HexChar(c.b % 16)]
  }

  /** Parsing a written colour gives it back. */
  lemma HexRoundTrip(c: Rgb)
    requires InByteRange(c)
    ensures HexToRgb(ToHex(c)) == c
  {
    var h := HexBody(ToHex(c));
    assert h == ToHex(c)[1..];
    assert PairValue(h, 0) == 16 * (c.r / 16) + c.r % 16;
    assert PairValue(h, 2) == 16 * (c.g / 16) + c.g % 16;
    assert PairValue(h, 4) == 16 * (c.b / 16) + c.b % 16;
  }

  /** Lower-case form of a hex digit. */
  function LowerHex(ch: char): (lo: char)
    requires IsHexDigit(ch)
    ensures IsHexDigit(lo) && DigitValue(lo) == DigitValue(ch)
    ensures !('A' <= lo <= 'F')
  {
    if 'A' <= ch <= 'F' then (ch as int - 'A' as int + 'a' as int) as char else ch
  }

  /** Writing a parsed colour gives back its digits, lower-cased, behind a `#`:
      upper and lower case and the optional `#` are all the parse forgets. */
  lemma HexParseThenWrite(s: string)
    requires IsHexColour(s)
    ensures var w := ToHex(HexToRgb(s));
            |w| == 7 && w[0] == '#'
            && forall i :: 0 <= i < 6 ==> w[i + 1] == LowerHex(HexBody(s)[i])
  {
    var h := HexBody(s);
    var c := HexToRgb(s);
    assert c == Rgb(PairValue(h, 0), PairValue(h, 2), PairValue(h, 4));
    PairWritesBack(h, 0);
    PairWritesBack(h, 2);
    PairWritesBack(h, 4);
    WrittenDigits(c);
    var w := ToHex(c);
    forall i | 0 <= i < 6 ensures w[i + 1] == LowerHex(h[i]) {
      if i < 2 {
        assert i == 0 || i == 1;
      } else if i < 4 {
        assert i == 2 || i == 3;
      } else {
        assert i == 4 || i == 5;
      }
    }
  }

  /** The six digits `ToHex` writes after the `#`. */
  lemma WrittenDigits(c: Rgb)
    requires InByteRange(c)
    ensures var w := ToHex(c);
            w[1] == HexChar(c.r / 16) && w[2] == HexChar(c.r % 16)
            && w[3] == HexChar(c.g / 16) && w[4] == HexChar(c.g % 16)
            && w[5] == HexChar(c.b / 16) && w[6] == HexChar(c.b % 16)
  {
  }

  /** A parsed pair, written back, gives its two digits lower-cased. */
  lemma PairWritesBack(h: string, i: nat)
    requires i + 1 < |h| && IsHexDigit(h[i]) && IsHexDigit(h[i + 1])
    ensures HexChar(PairValue(h, i) / 16) == LowerHex(h[i])
    ensures HexChar(PairValue(h, i) % 16) == LowerHex(h[i + 1])
  {
    DigitsOfPair(h, i);
    HexCharOfDigit(h[i], PairValue(h, i) / 16);
    HexCharOfDigit(h[i + 1], PairValue(h, i) % 16);
  }

  /** The digit a value's parse came from, written back, is its lower case. */
  lemma HexCharOfDigit(ch: char, v: int)
    requires IsHexDigit(ch) && v == DigitValue(ch)
    ensures HexChar(v) == LowerHex(ch)
  {
  }

  /** The two digits of a pair are its value's quotient and remainder by 16. */
  lemma DigitsOfPair(h: string, i: nat)
    requires i + 1 < |h| && IsHexDigit(h[i]) && IsHexDigit(h[i + 1])
    ensures PairValue(h, i) / 16 == DigitValue(h[i])
    ensures PairValue(h, i) % 16 == DigitValue(h[i + 1])
  {
  }

  /** The `#` is optional. */
  lemma HashIsOptional(x: string)
    requires |x| == 0 || x[0] != '#'
    ensures HexToRgb("#" + x) == HexToRgb(x)
  {
    assert ("#" + x)[1..] == x;
  }

  /** The page's own default primary colour parses to the fallback colour. */
  lemma DefaultPrimaryColour()
    ensures IsHexColour("#db2777")
    ensures HexToRgb("#db2777") == DefaultColour
  {
    assert HexBody("#db2777") == "db2777";
  }
}
