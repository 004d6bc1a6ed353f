/** The reports page's period filter (js/relatorios.js). */
module PeriodFilter {
  import opened Calendar
  import opened Records
  import opened Selection

  /** The period select's options; any other value is kept as `Other`. */
  datatype Period = AllTime | CurrentMonth | LastMonth | Last3Months | Last6Months | LastYear
                  | Other(name: string)

  function PeriodName(p: Period): string {
    match p
    case AllTime => "all"
    case CurrentMonth => "current-month"
    case LastMonth => "last-month"
    case Last3Months => "last-3-months"
    case Last6Months => "last-6-months"
    case LastYear => "last-year"
    case Other(name) => name
  }

  function ParsePeriod(s: string): (p: Period)
    ensures PeriodName(p) == s
  {
    if s == "all" then AllTime
    else if s == "current-month" then CurrentMonth
    else if s == "last-month" then LastMonth
    else if s == "last-3-months" then Last3Months
    else if s == "last-6-months" then Last6Months
    else if s == "last-year" then LastYear
    else Other(s)
  }

  /** Every option value reads back as its period. */
  lemma ParseName(p: Period)
    requires !p.Other? || p.name !in {"all", "current-month", "last-month", "last-3-months", "last-6-months", "last-year"}
    ensures ParsePeriod(PeriodName(p)) == p
  {
  }

  /** The range test of each `switch` case: from the first day of a month
      (`new Date(y, m - k, 1)`) to the last day of a month or to `now` at the
      end of today; no test at all for an unrecognised value. */
  function PeriodCriteria(p: Period, today: Date): (cs: seq<Criterion>)
    ensures |cs| <= 1
    ensures p.AllTime? || p.Other? <==> cs == []
  {
    var idx := MonthIndex(today);
    match p
    case AllTime => []
    case CurrentMonth => [Between(FirstDayOfMonth(idx), LastDayOfMonth(idx))]
    case LastMonth => [Between(FirstDayOfMonth(idx - 1), LastDayOfMonth(idx - 1))]
    case Last3Months => [Between(FirstDayOfMonth(idx - 2), today)]
    case Last6Months => [Between(FirstDayOfMonth(idx - 5), today)]
    case LastYear => [Between(FirstDayOfMonth(idx - 11), today)]
    case Other(_) => []
  }

  /** Which real days each period covers, stated on month indices. */
  predicate InPeriod(p: Period, today: Date, d: Date) {
    var idx := MonthIndex(today);
    match p
    case AllTime => true
    case CurrentMonth => MonthIndex(d) == idx
    case LastMonth => MonthIndex(d) == idx - 1
    case Last3Months => idx - 2 <= MonthIndex(d) && DateLe(d, today)
    case Last6Months => idx - 5 <= MonthIndex(d) && DateLe(d, today)
    case LastYear => idx - 11 <= MonthIndex(d) && DateLe(d, today)
    case Other(_) => true
  }

  /** For a real day, the `switch` test is the month-index description. */
  lemma CriteriaMeanPeriod(p: Period, today: Date, t: Transaction)
    requires ValidDate(t.date)
    ensures MeetsAll(t, PeriodCriteria(p, today)) <==> InPeriod(p, today, t.date)
  {
    var idx := MonthIndex(today);
    var cs := PeriodCriteria(p, today);
    if cs != [] {
      MeetsSingle(cs[0]);
      assert cs == [cs[0]];
    }
    match p
    case CurrentMonth => WithinMonth(idx, t.date);
    case LastMonth => WithinMonth(idx - 1, t.date);
    case Last3Months => OnOrAfterFirstDay(idx - 2, t.date);
    case Last6Months => OnOrAfterFirstDay(idx - 5, t.date);
    case LastYear => OnOrAfterFirstDay(idx - 11, t.date);
    case _ =>
  }

  /** `filterTransactionsByPeriod(transactions, period)`, with the clock's
      date passed in as `today`. */
  function FilterTransactionsByPeriod(txs: seq<Transaction>, p: Period, today: Date): (r: seq<Transaction>)
    ensures p.AllTime? || p.Other? ==> r == txs
    ensures Subseq(r, txs)
    ensures forall t :: t in r ==> t in txs
    ensures forall t: Transaction :: ValidDate(t.date) ==> (t in r <==> t in txs && InPeriod(p, today, t.date))
  {
    KeepNothing(txs);
    if p.AllTime? then txs
    else
      var cs := PeriodCriteria(p, today);
      forall t: Transaction | ValidDate(t.date) ensures MeetsAll(t, cs) <==> InPeriod(p, today, t.date) {
        CriteriaMeanPeriod(p, today, t);
      }
      Keep(txs, cs)
  }

  /** In January, "last month" is December of the year before. */
  lemma LastMonthAcrossYearExample()
    ensures
      var dec := Transaction(1, "Presentes", 8000, Outcome, "Lazer", Date(2023, 11, 20), "paid");
      var jan := Transaction(2, "Mercado", 5000, Outcome, "Alimentação", Date(2024, 0, 5), "paid");
      FilterTransactionsByPeriod([dec, jan], LastMonth, Date(2024, 0, 15)) == [dec]
  {
    var dec := Transaction(1, "Presentes", 8000, Outcome, "Lazer", Date(2023, 11, 20), "paid");
    var jan := Transaction(2, "Mercado", 5000, Outcome, "Alimentação", Date(2024, 0, 5), "paid");
    var r := FilterTransactionsByPeriod([dec, jan], LastMonth, Date(2024, 0, 15));
    assert ValidDate(dec.date) && ValidDate(jan.date);
    assert dec in r && jan !in r;
    assert Subseq(r, [dec, jan]);
    assert [dec, jan][..1] == [dec];
    assert [dec][..0] == [];
  }

  /** On 15 March 2024, the last three months start on 1 January 2024. */
  lemma LastThreeMonthsExample()
    ensures
      var before := Transaction(1, "Ceia", 20000, Outcome, "Alimentação", Date(2023, 11, 31), "paid");
      var first := Transaction(2, "Aluguel", 150000, Outcome, "Moradia", Date(2024, 0, 1), "paid");
      var r := FilterTransactionsByPeriod([before, first], Last3Months, Date(2024, 2, 15));
      before !in r && first in r
  {
    assert ValidDate(Date(2023, 11, 31)) && ValidDate(Date(2024, 0, 1));
  }
}
