/** Selecting and summing transactions: the `.filter(...)` chains and
    `.filter(...).reduce((acc, t) => acc + t.amount, 0)` sums that the pages
    repeat, each stated once here. */
module Selection {
  import opened Calendar
  import opened Records

  /** One `.filter` condition used by the pages. */
  datatype Criterion =
    | InMonth(month: int, monthYear: Choice<int>)  // getMonth() === month && getFullYear() === parseInt(year)
    | InYear(year: int)                       // getFullYear() === year
    | NameContains(term: string)              // t.name.includes(term)
    | KindIs(kind: TxKind)                    // t.type === kind
    | CategoryIs(category: string)            // t.category === category
    | Between(start: Date, end: Date)         // start <= date <= end

  /** `term` occurs in `s` starting at position `i`. */
  predicate OccursAt(s: string, term: string, i: int) {
    0 <= i <= |s| - |term| && s[i..i + |term|] == term
  }

  /** `s.includes(term)`. */
  predicate Contains(s: string, term: string) {
    exists i | 0 <= i <= |s| - |term| :: OccursAt(s, term, i)
  }

  predicate Meets(t: Transaction, c: Criterion) {
    match c
    // parseInt('all') is NaN, which no year equals
    case InMonth(m, y) => t.date.month == m && y.Only? && t.date.year == y.value
    case InYear(y) => t.date.year == y
    case NameContains(term) => Contains(t.name, term)
    case KindIs(k) => t.kind == k
    case CategoryIs(cat) => t.category == cat
    case Between(start, end) => DateLe(start, t.date) && DateLe(t.date, end)
  }

  /** Meets every criterion of `cs`. */
  predicate MeetsAll(t: Transaction, cs: seq<Criterion>)
    decreases |cs|
  {
    |cs| == 0 || (MeetsAll(t, cs[..|cs| - 1]) && Meets(t, cs[|cs| - 1]))
  }

  /** Meeting the criteria `cs + [c]` is meeting `cs` and then `c`. */
  lemma MeetsAllSnoc(cs: seq<Criterion>, c: Criterion)
    ensures forall t :: MeetsAll(t, cs + [c]) <==> MeetsAll(t, cs) && Meets(t, c)
  {
    assert (cs + [c])[..|cs|] == cs;
  }

  /** Meeting a one-element list of criteria is meeting its element. */
  lemma MeetsSingle(c: Criterion)
    ensures forall t :: MeetsAll(t, [c]) <==> Meets(t, c)
  {
    MeetsAllSnoc([], c);
    assert [] + [c] == [c];
  }

  /** `a` is `b` with some elements removed, order kept. */
  predicate Subseq<T(==)>(a: seq<T>, b: seq<T>)
    decreases |b|
  {
    if |a| == 0 then true
    else if |b| == 0 then false
    else (a[|a| - 1] == b[|b| - 1] && Subseq(a[..|a| - 1], b[..|b| - 1]))
         || Subseq(a, b[..|b| - 1])
  }

  /** The transactions of `s` that meet every criterion of `cs`, in order. */
  function Keep(s: seq<Transaction>, cs: seq<Criterion>): (r: seq<Transaction>)
    ensures forall t :: t in r <==> t in s && MeetsAll(t, cs)
    ensures Subseq(r, s)
    decreases |s|
  {
    if |s| == 0 then []
    else
      var init, last := s[..|s| - 1], s[|s| - 1];
      var r := Keep(init, cs);
      assert forall t :: t in s <==> t in init || t == last;
      if MeetsAll(last, cs) then
        assert (r + [last])[..|r|] == r;
        r + [last]
      else r
  }

  /** Filtering keeps every copy of a transaction that meets the criteria
      and no copy of one that does not. */
  lemma {:induction false} KeepCounts(s: seq<Transaction>, cs: seq<Criterion>)
    ensures forall t :: multiset(Keep(s, cs))[t] == if MeetsAll(t, cs) then multiset(s)[t] else 0
    decreases |s|
  {
    if |s| > 0 {
      var init, last := s[..|s| - 1], s[|s| - 1];
      KeepCounts(init, cs);
      assert s == init + [last];
      assert multiset(s) == multiset(init) + multiset{last};
      if MeetsAll(last, cs) {
        assert Keep(s, cs) == Keep(init, cs) + [last];
        assert multiset(Keep(s, cs)) == multiset(Keep(init, cs)) + multiset{last};
      } else {
        assert Keep(s, cs) == Keep(init, cs);
      }
    }
  }

  /** Filtering with no criterion keeps everything. */
  lemma {:induction false} KeepNothing(s: seq<Transaction>)
    ensures Keep(s, []) == s
    decreases |s|
  {
    if |s| > 0 {
      var init, last := s[..|s| - 1], s[|s| - 1];
      KeepNothing(init);
    }
  }

  /** Filtering twice is filtering once by both conditions: what makes the
      page's step-by-step `filtered = filtered.filter(...)` a single filter. */
  lemma {:induction false} KeepThenKeep(s: seq<Transaction>, cs: seq<Criterion>, c: Criterion)
    ensures Keep(Keep(s, cs), [c]) == Keep(s, cs + [c])
    decreases |s|
  {
    if |s| > 0 {
      var init, last := s[..|s| - 1], s[|s| - 1];
      KeepThenKeep(init, cs, c);
      assert (cs + [c])[..|cs|] == cs;
      assert MeetsAll(last, [c]) == Meets(last, c) by {
        assert [c][..0] == [];
      }
      var r := Keep(init, cs);
      if MeetsAll(last, cs) {
        assert (r + [last])[..|r|] == r;
      }
    }
  }

  /** Which transactions a sum runs over. */
  datatype Selector =
    | Outcomes                       // t.type === 'outcome'
    | Incomes                        // t.type === 'income'
    | OutcomesIn(category: string)   // outcome in one category
    | IncomesIn(category: string)    // income in one category
    | OutcomesInMonth(month: int)    // outcome whose month index is `month`
    | OutcomesInMonths(first: int, last: int)  // outcome whose month index lies in first..last

  predicate Selects(sel: Selector, t: Transaction) {
    match sel
    case Outcomes => t.kind == Outcome
    case Incomes => t.kind == Income
    case OutcomesIn(c) => t.kind == Outcome && t.category == c
    case IncomesIn(c) => t.kind == Income && t.category == c
    case OutcomesInMonth(m) => t.kind == Outcome && MonthIndex(t.date) == m
    case OutcomesInMonths(first, last) => t.kind == Outcome && first <= MonthIndex(t.date) <= last
  }

  /** Sum of the amounts of the selected transactions. */
  function Total(s: seq<Transaction>, sel: Selector): int
    decreases |s|
  {
    if |s| == 0 then 0
    else Total(s[..|s| - 1], sel) + (if Selects(sel, s[|s| - 1]) then s[|s| - 1].amount else 0)
  }

  /** Number of selected transactions. */
  function Count(s: seq<Transaction>, sel: Selector): nat
    decreases |s|
  {
    if |s| == 0 then 0
    else Count(s[..|s| - 1], sel) + (if Selects(sel, s[|s| - 1]) then 1 else 0)
  }

  /** The categories that have at least one outcome in `s`. */
  function OutcomeCategories(s: seq<Transaction>): (cats: set<string>)
    ensures forall c :: c in cats <==> exists i :: 0 <= i < |s| && Selects(OutcomesIn(c), s[i])
    decreases |s|
  {
    if |s| == 0 then {}
    else
      var init := s[..|s| - 1];
      var cats := OutcomeCategories(init);
      assert forall i :: 0 <= i < |init| ==> s[i] == init[i];
      if s[|s| - 1].kind == Outcome then cats + {s[|s| - 1].category} else cats
  }

  /** A category without outcomes sums to 0 and counts 0; one with outcomes
      counts at least 1. */
  lemma {:induction false} CategoryTotals(s: seq<Transaction>, c: string)
    ensures c !in OutcomeCategories(s) ==> Total(s, OutcomesIn(c)) == 0 && Count(s, OutcomesIn(c)) == 0
    ensures c in OutcomeCategories(s) ==> Count(s, OutcomesIn(c)) >= 1
    decreases |s|
  {
    if |s| > 0 {
      CategoryTotals(s[..|s| - 1], c);
    }
  }

  /** Taking one more element of a sequence extends each sum by that element. */
  lemma StepTotals(s: seq<Transaction>, i: nat, sel: Selector)
    requires i < |s|
    ensures Total(s[..i + 1], sel) == Total(s[..i], sel) + (if Selects(sel, s[i]) then s[i].amount else 0)
    ensures Count(s[..i + 1], sel) == Count(s[..i], sel) + (if Selects(sel, s[i]) then 1 else 0)
    ensures OutcomeCategories(s[..i + 1])
            == OutcomeCategories(s[..i]) + (if s[i].kind == Outcome then {s[i].category} else {})
  {
    assert s[..i + 1][..i] == s[..i];
  }

  /** A selector that picks nothing sums to 0. */
  lemma {:induction false} TotalOfNothing(s: seq<Transaction>, sel: Selector)
    requires forall t :: !Selects(sel, t)
    ensures Total(s, sel) == 0
    decreases |s|
  {
    if |s| > 0 {
      TotalOfNothing(s[..|s| - 1], sel);
    }
  }

  /** A selection that is the disjoint union of two others sums to the sum of both. */
  lemma {:induction false} TotalSplit(s: seq<Transaction>, whole: Selector, a: Selector, b: Selector)
    requires forall t :: Selects(whole, t) <==> Selects(a, t) || Selects(b, t)
    requires forall t :: !(Selects(a, t) && Selects(b, t))
    ensures Total(s, whole) == Total(s, a) + Total(s, b)
    decreases |s|
  {
    if |s| > 0 {
      TotalSplit(s[..|s| - 1], whole, a, b);
    }
  }

  /** Filtering by two lists of criteria that agree on every element gives the same list. */
  lemma {:induction false} KeepAgree(s: seq<Transaction>, cs1: seq<Criterion>, cs2: seq<Criterion>)
    requires forall i :: 0 <= i < |s| ==> (MeetsAll(s[i], cs1) <==> MeetsAll(s[i], cs2))
    ensures Keep(s, cs1) == Keep(s, cs2)
    decreases |s|
  {
    if |s| > 0 {
      var init := s[..|s| - 1];
      assert forall i :: 0 <= i < |init| ==> init[i] == s[i];
      KeepAgree(init, cs1, cs2);
    }
  }

  /** Summing a selection over a filtered list is summing one combined
      selection over the whole list. */
  lemma {:induction false} TotalOfKeep(s: seq<Transaction>, cs: seq<Criterion>, sel: Selector, whole: Selector)
    requires forall i :: 0 <= i < |s| ==> (MeetsAll(s[i], cs) && Selects(sel, s[i]) <==> Selects(whole, s[i]))
    ensures Total(Keep(s, cs), sel) == Total(s, whole)
    decreases |s|
  {
    if |s| > 0 {
      var init, last := s[..|s| - 1], s[|s| - 1];
      assert forall i :: 0 <= i < |init| ==> init[i] == s[i];
      TotalOfKeep(init, cs, sel, whole);
      assert Total(s, whole) == Total(init, whole) + (if Selects(whole, last) then last.amount else 0);
      assert MeetsAll(last, cs) && Selects(sel, last) <==> Selects(whole, last);
      if MeetsAll(last, cs) {
        assert Keep(s, cs) == Keep(init, cs) + [last];
        TotalSnoc(Keep(init, cs), last, sel);
      } else {
        assert Keep(s, cs) == Keep(init, cs);
      }
    }
  }

  /** Appending one transaction adds its amount when it is selected. */
  lemma TotalSnoc(r: seq<Transaction>, x: Transaction, sel: Selector)
    ensures Total(r + [x], sel) == Total(r, sel) + (if Selects(sel, x) then x.amount else 0)
  {
    assert (r + [x])[..|r|] == r;
  }

}
