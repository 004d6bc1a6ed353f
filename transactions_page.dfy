/** The month/year filters of the dashboard and transactions page, and the
    list of months offered by the month selector (js/app.js). */
module TransactionFilters {
  import opened Calendar
  import opened Records
  import opened Selection

  /** `isTransactionInMonth`: the date's month (0..11) and year equal the given ones. */
  predicate IsTransactionInMonth(t: Transaction, month: int, year: int) {
    t.date.month == month && t.date.year == year
  }

  /** `getCurrentMonthTransactions`, with the clock's date passed in as `today`. */
  function CurrentMonthTransactions(txs: seq<Transaction>, today: Date): (r: seq<Transaction>)
    ensures Subseq(r, txs)
    ensures forall t :: t in r <==> t in txs && IsTransactionInMonth(t, today.month, today.year)
  {
    MeetsSingle(InMonth(today.month, Only(today.year)));
    Keep(txs, [InMonth(today.month, Only(today.year))])
  }

  /** `getFilteredTransactions(month, year)`: everything for month "all",
      otherwise the transactions of that month of that year. */
  function FilteredTransactions(txs: seq<Transaction>, month: Choice<int>, year: int): (r: seq<Transaction>)
    ensures month.All? ==> r == txs
    ensures month.Only? ==> Subseq(r, txs)
    ensures month.Only? ==>
              forall t :: t in r <==> t in txs && IsTransactionInMonth(t, month.value, year)
  {
    match month
    case All => txs
    case Only(m) =>
      MeetsSingle(InMonth(m, Only(year)));
      Keep(txs, [InMonth(m, Only(year))])
  }

  /** The month and year selects, present only on the transactions page. */
  datatype DateControls = DateControls(month: Choice<int>, year: Choice<int>)

  /** The transactions page's filter controls. `dates` is None when either
      select is missing; `search` is the trimmed, lower-cased search text
      ("" for no search); a missing type or category select counts as "all". */
  datatype FilterControls = FilterControls(
    dates: Option<DateControls>,
    search: string,
    kind: Choice<TxKind>,
    category: Choice<string>)

  /** The month and year selects: month and year when a month is chosen (a
      chosen month with year "all" compares the year against NaN and matches
      nothing), the year alone when only a year is chosen, else anything. */
  predicate DatesMatch(dates: Option<DateControls>, t: Transaction) {
    match dates
    case None => true
    case Some(dc) =>
      match dc.month
      case Only(m) => t.date.month == m && dc.year.Only? && t.date.year == dc.year.value
      case All => dc.year.All? || t.date.year == dc.year.value
  }

  predicate SearchMatches(search: string, t: Transaction) {
    search == [] || Contains(t.name, search)
  }

  predicate KindMatches(kind: Choice<TxKind>, t: Transaction) {
    kind.All? || t.kind == kind.value
  }

  predicate CategoryMatches(category: Choice<string>, t: Transaction) {
    category.All? || t.category == category.value
  }

  /** What a transaction must satisfy to be listed under the controls `f`. */
  predicate Matches(f: FilterControls, t: Transaction) {
    DatesMatch(f.dates, t) && SearchMatches(f.search, t)
    && KindMatches(f.kind, t) && CategoryMatches(f.category, t)
  }

  /** The date stage of `getTransactionsForFilter`. */
  method FilterByDates(txs: seq<Transaction>, dates: Option<DateControls>)
    returns (filtered: seq<Transaction>, ghost cs: seq<Criterion>)
    ensures filtered == Keep(txs, cs)
    ensures forall t :: MeetsAll(t, cs) <==> DatesMatch(dates, t)
  {
    filtered, cs := txs, [];
    KeepNothing(txs);
    if dates.Some? {
      var dc := dates.value;
      if dc.month.Only? {
        var c := InMonth(dc.month.value, dc.year);
        MeetsSingle(c);
        filtered, cs := Keep(filtered, [c]), [c];
      } else if dc.year.Only? {
        var c := InYear(dc.year.value);
        MeetsSingle(c);
        filtered, cs := Keep(filtered, [c]), [c];
      }
    }
  }

  /** `getTransactionsForFilter`: narrows `filtered` one control at a time. */
  method TransactionsForFilter(txs: seq<Transaction>, f: FilterControls) returns (filtered: seq<Transaction>)
    ensures Subseq(filtered, txs)
    ensures forall t :: t in filtered <==> t in txs && Matches(f, t)
    ensures forall t :: multiset(filtered)[t] == if Matches(f, t) then multiset(txs)[t] else 0
  {
    ghost var cs;
    filtered, cs := FilterByDates(txs, f.dates);

    ghost var before := cs;
    if f.search != [] {
      filtered, cs := Narrow(txs, filtered, cs, NameContains(f.search));
    }
    assert forall t :: MeetsAll(t, cs) <==> MeetsAll(t, before) && SearchMatches(f.search, t);

    before := cs;
    if f.kind.Only? {
      filtered, cs := Narrow(txs, filtered, cs, KindIs(f.kind.value));
    }
    assert forall t :: MeetsAll(t, cs) <==> MeetsAll(t, before) && KindMatches(f.kind, t);

    before := cs;
    if f.category.Only? {
      filtered, cs := Narrow(txs, filtered, cs, CategoryIs(f.category.value));
    }
    assert forall t :: MeetsAll(t, cs) <==> MeetsAll(t, before) && CategoryMatches(f.category, t);
    KeepCounts(txs, cs);
  }

  /** One `filtered = filtered.filter(...)` step: the list so far, narrowed by
      one more criterion, is the whole list filtered by all of them. */
  method Narrow(ghost txs: seq<Transaction>, filtered0: seq<Transaction>, ghost cs0: seq<Criterion>, c: Criterion)
    returns (filtered: seq<Transaction>, ghost cs: seq<Criterion>)
    requires filtered0 == Keep(txs, cs0)
    ensures filtered == Keep(txs, cs)
    ensures forall t :: t in filtered <==> t in filtered0 && Meets(t, c)
    ensures forall t :: MeetsAll(t, cs) <==> MeetsAll(t, cs0) && Meets(t, c)
  {
    KeepThenKeep(txs, cs0, c);
    MeetsAllSnoc(cs0, c);
    MeetsSingle(c);
    filtered, cs := Keep(filtered0, [c]), cs0 + [c];
  }

  predicate StrictlyDecreasing(s: seq<int>) {
    forall i, j :: 0 <= i < j < |s| ==> s[i] > s[j]
  }

  /** Places `x` into a strictly decreasing sequence, once. */
  function InsertDescending(sorted: seq<int>, x: int): (r: seq<int>)
    requires StrictlyDecreasing(sorted)
    ensures StrictlyDecreasing(r)
    ensures forall y :: y in r <==> y in sorted || y == x
    decreases |sorted|
  {
    if |sorted| == 0 then [x]
    else if x > sorted[0] then
      var r := [x] + sorted;
      assert forall i, j :: 0 <= i < j < |r| ==> r[i] > r[j] by {
        forall i, j | 0 <= i < j < |r| ensures r[i] > r[j] {
          assert r[j] == sorted[j - 1];
          if i > 0 {
            assert r[i] == sorted[i - 1];
          } else if j > 1 {
            assert sorted[0] > sorted[j - 1];
          }
        }
      }
      r
    else if x == sorted[0] then sorted
    else
      var rest := InsertDescending(sorted[1..], x);
      assert forall y :: y in sorted[1..] ==> y < sorted[0];
      var r := [sorted[0]] + rest;
      assert forall i, j :: 0 <= i < j < |r| ==> r[i] > r[j] by {
        forall i, j | 0 <= i < j < |r| ensures r[i] > r[j] {
          assert r[j] == rest[j - 1];
          if i > 0 {
            assert r[i] == rest[i - 1];
          } else {
            assert rest[j - 1] in rest;
          }
        }
      }
      r
  }

  /** `.sort((a, b) => b.localeCompare(a))` on distinct month keys: the same
      elements, most recent first. */
  function SortDescending(keys: seq<int>): (r: seq<int>)
    ensures StrictlyDecreasing(r)
    ensures forall y :: y in r <==> y in keys
    decreases |keys|
  {
    if |keys| == 0 then []
    else
      var init := keys[..|keys| - 1];
      assert forall y :: y in keys <==> y in init || y == keys[|keys| - 1];
      InsertDescending(SortDescending(init), keys[|keys| - 1])
  }

  /** The month index of every transaction's date. */
  function TransactionMonths(txs: seq<Transaction>): set<int> {
    set t | t in txs :: MonthIndex(t.date)
  }

  /** `getAvailableMonths`: the current month and every month that has a
      transaction, each once, most recent first. A "YYYY-MM" key is
      represented by its month index; the JS `Set` by a duplicate-free
      sequence in insertion order. */
  method AvailableMonths(txs: seq<Transaction>, today: Date) returns (months: seq<int>)
    ensures forall k :: k in months <==> k == MonthIndex(today) || k in TransactionMonths(txs)
    ensures StrictlyDecreasing(months)
  {
    var keys: seq<int> := [MonthIndex(today)];
    var i := 0;
    while i < |txs|
      invariant 0 <= i <= |txs|
      invariant forall k :: k in keys <==> k == MonthIndex(today) || k in TransactionMonths(txs[..i])
    {
      assert forall t :: t in txs[..i + 1] <==> t in txs[..i] || t == txs[i];
      var key := MonthIndex(txs[i].date);
      if key !in keys {
        keys := keys + [key];
      }
      i := i + 1;
    }
    assert txs[..i] == txs;
    months := SortDescending(keys);
  }
}
