/** The per-category dictionaries the three pages build with
    `obj[category] = (obj[category] || 0) + amount` inside `forEach` loops,
    and their "sort by total, keep the first five" views.

    A dictionary is a sequence of entries in key-insertion order, which is
    the order `Object.entries` lists string keys in. Each entry also counts
    the contributions added to it; the pages that only keep totals never
    read that count. */
module CategoryTable {
  import opened Calendar
  import opened Records
  import opened Selection

  datatype Entry = Entry(category: string, total: int, count: nat)

  type Table = seq<Entry>

  /** No category appears twice. */
  predicate DistinctKeys(es: Table) {
    forall i, j :: 0 <= i < j < |es| ==> es[i].category != es[j].category
  }

  function Keys(es: Table): set<string> {
    set e | e in es :: e.category
  }

  /** Where `c` is stored, or -1 when it is not a key. */
  function IndexOf(es: Table, c: string): (j: int)
    ensures -1 <= j < |es|
    ensures j >= 0 ==> es[j].category == c
    ensures j < 0 <==> c !in Keys(es)
    decreases |es|
  {
    if |es| == 0 then -1
    else if es[|es| - 1].category == c then |es| - 1
    else
      var j := IndexOf(es[..|es| - 1], c);
      assert Keys(es) == Keys(es[..|es| - 1]) + {es[|es| - 1].category} by {
        assert es == es[..|es| - 1] + [es[|es| - 1]];
      }
      j
  }

  /** `obj[c] || 0`. */
  function TotalOf(es: Table, c: string): int {
    var j := IndexOf(es, c);
    if j >= 0 then es[j].total else 0
  }

  /** The number of contributions to `c`, 0 when absent. */
  function CountOf(es: Table, c: string): nat {
    var j := IndexOf(es, c);
    if j >= 0 then es[j].count else 0
  }

  /** Sum of all totals: `Object.values(obj).reduce((a, v) => a + v, 0)`. */
  function SumTotals(es: Table): int
    decreases |es|
  {
    if |es| == 0 then 0 else SumTotals(es[..|es| - 1]) + es[|es| - 1].total
  }

  /** Two tables with the same key at every position find every key at the same place. */
  lemma {:induction false} SameKeysSameIndex(a: Table, b: Table, c: string)
    requires |a| == |b|
    requires forall i :: 0 <= i < |a| ==> a[i].category == b[i].category
    ensures IndexOf(a, c) == IndexOf(b, c)
    decreases |a|
  {
    if |a| > 0 {
      SameKeysSameIndex(a[..|a| - 1], b[..|b| - 1], c);
    }
  }

  /** Replacing one entry changes the sum by the difference of the two totals. */
  lemma {:induction false} SumAfterUpdate(es: Table, j: nat, e: Entry)
    requires j < |es|
    ensures SumTotals(es[j := e]) == SumTotals(es) - es[j].total + e.total
    decreases |es|
  {
    var last := |es| - 1;
    if j < last {
      SumAfterUpdate(es[..last], j, e);
      assert es[j := e][..last] == es[..last][j := e];
    } else {
      assert es[j := e][..last] == es[..last];
    }
  }

  lemma SumAfterAppend(es: Table, e: Entry)
    ensures SumTotals(es + [e]) == SumTotals(es) + e.total
  {
    assert (es + [e])[..|es|] == es;
  }

  /** Looking up in a table with one more entry at the end. */
  lemma IndexAfterAppend(es: Table, e: Entry, d: string)
    ensures IndexOf(es + [e], d) == if d == e.category then |es| else IndexOf(es, d)
  {
    assert (es + [e])[..|es|] == es;
  }

  /** Overwriting an entry with one of the same category keeps every key where it was. */
  lemma UpdateInPlace(es: Table, j: nat, e: Entry)
    requires j < |es| && e.category == es[j].category
    ensures Keys(es[j := e]) == Keys(es)
    ensures DistinctKeys(es) ==> DistinctKeys(es[j := e])
    ensures forall d :: IndexOf(es[j := e], d) == IndexOf(es, d)
    ensures SumTotals(es[j := e]) == SumTotals(es) - es[j].total + e.total
  {
    var r := es[j := e];
    forall d ensures IndexOf(r, d) == IndexOf(es, d) {
      SameKeysSameIndex(r, es, d);
    }
    SumAfterUpdate(es, j, e);
    forall x | x in Keys(es) ensures x in Keys(r) {
      var i :| 0 <= i < |es| && es[i].category == x;
      assert r[i].category == x;
    }
  }

  /** Appending an entry for a new category. */
  lemma AppendNew(es: Table, e: Entry)
    requires e.category !in Keys(es)
    ensures Keys(es + [e]) == Keys(es) + {e.category}
    ensures DistinctKeys(es) ==> DistinctKeys(es + [e])
    ensures forall d :: IndexOf(es + [e], d) == if d == e.category then |es| else IndexOf(es, d)
    ensures SumTotals(es + [e]) == SumTotals(es) + e.total
  {
    forall d ensures IndexOf(es + [e], d) == if d == e.category then |es| else IndexOf(es, d) {
      IndexAfterAppend(es, e, d);
    }
    SumAfterAppend(es, e);
    assert forall i :: 0 <= i < |es| ==> es[i].category in Keys(es);
  }

  /** Adds `amount` and `n` contributions to category `c`, creating its entry
      at the end when `c` is not yet a key. */
  function Credit(es: Table, c: string, amount: int, n: nat): (r: Table)
    ensures Keys(r) == Keys(es) + {c}
    ensures DistinctKeys(es) ==> DistinctKeys(r)
    ensures forall d :: TotalOf(r, d) == TotalOf(es, d) + (if d == c then amount else 0)
    ensures forall d :: CountOf(r, d) == CountOf(es, d) + (if d == c then n else 0)
    ensures SumTotals(r) == SumTotals(es) + amount
  {
    var j := IndexOf(es, c);
    if j >= 0 then
      var e := Entry(c, es[j].total + amount, es[j].count + n);
      UpdateInPlace(es, j, e);
      es[j := e]
    else
      AppendNew(es, Entry(c, amount, n));
      es + [Entry(c, amount, n)]
  }

  /** Sets the total of `c` to `amount` (`obj[c] = amount`), keeping its
      position when it is already a key; the entry then stands for one
      contribution. */
  function SetTotal(es: Table, c: string, amount: int): (r: Table)
    ensures Keys(r) == Keys(es) + {c}
    ensures DistinctKeys(es) ==> DistinctKeys(r)
    ensures forall d :: TotalOf(r, d) == if d == c then amount else TotalOf(es, d)
  {
    var j := IndexOf(es, c);
    if j >= 0 then
      UpdateInPlace(es, j, Entry(c, amount, 1));
      es[j := Entry(c, amount, 1)]
    else
      AppendNew(es, Entry(c, amount, 1));
      es + [Entry(c, amount, 1)]
  }

  /** In a table without repeated keys, an entry is found where it is stored. */
  lemma EntryLookup(es: Table, i: nat)
    requires DistinctKeys(es) && i < |es|
    ensures IndexOf(es, es[i].category) == i
    ensures TotalOf(es, es[i].category) == es[i].total
    ensures CountOf(es, es[i].category) == es[i].count
  {
    assert es[i].category in Keys(es);
  }

  /** The outcome table of `s`: every outcome credited to its category, in order. */
  function ByCategory(s: seq<Transaction>): (r: Table)
    ensures DistinctKeys(r)
    ensures Keys(r) == OutcomeCategories(s)
    ensures forall c :: TotalOf(r, c) == Total(s, OutcomesIn(c))
    ensures forall c :: CountOf(r, c) == Count(s, OutcomesIn(c))
    ensures SumTotals(r) == Total(s, Outcomes)
    decreases |s|
  {
    if |s| == 0 then []
    else
      var init, t := s[..|s| - 1], s[|s| - 1];
      var r := ByCategory(init);
      if t.kind == Outcome then Credit(r, t.category, t.amount, 1) else r
  }

  /** Every category in an outcome table has at least one outcome. */
  lemma ByCategoryCounts(s: seq<Transaction>)
    ensures forall i :: 0 <= i < |ByCategory(s)| ==> ByCategory(s)[i].count >= 1
  {
    var r := ByCategory(s);
    forall i | 0 <= i < |r| ensures r[i].count >= 1 {
      assert r[i].category in Keys(r);
      CategoryTotals(s, r[i].category);
      EntryLookup(r, i);
    }
  }

  /** The card loop: each card with `used > 0` credits its `used` to the
      credit-card category. */
  function WithCards(es: Table, cards: seq<Card>): (r: Table)
    ensures Keys(r) == Keys(es) + (if AnyCardInUse(cards) then {CreditCardCategory} else {})
    ensures DistinctKeys(es) ==> DistinctKeys(r)
    ensures TotalOf(r, CreditCardCategory) == TotalOf(es, CreditCardCategory) + PositiveCardUsed(cards)
    ensures forall d :: d != CreditCardCategory ==> TotalOf(r, d) == TotalOf(es, d)
    ensures SumTotals(r) == SumTotals(es) + PositiveCardUsed(cards)
    decreases |cards|
  {
    if |cards| == 0 then es
    else
      var init, card := cards[..|cards| - 1], cards[|cards| - 1];
      var r := WithCards(es, init);
      assert AnyCardInUse(cards) <==> AnyCardInUse(init) || UsedOrZero(card) > 0 by {
        if AnyCardInUse(init) {
          var i :| 0 <= i < |init| && UsedOrZero(init[i]) > 0;
          assert cards[i] == init[i];
        }
        if AnyCardInUse(cards) && UsedOrZero(card) <= 0 {
          var i :| 0 <= i < |cards| && UsedOrZero(cards[i]) > 0;
          assert init[i] == cards[i];
        }
      }
      if UsedOrZero(card) > 0 then Credit(r, CreditCardCategory, UsedOrZero(card), 1) else r
  }

  /** The `forEach` over outcomes that fills the dictionary. */
  method AccumulateOutcomes(s: seq<Transaction>) returns (es: Table)
    ensures es == ByCategory(s)
  {
    es := [];
    var i := 0;
    while i < |s|
      invariant 0 <= i <= |s|
      invariant es == ByCategory(s[..i])
    {
      assert s[..i + 1][..i] == s[..i];
      var t := s[i];
      if t.kind == Outcome {
        es := Credit(es, t.category, t.amount, 1);
      }
      i := i + 1;
    }
    assert s[..i] == s;
  }

  /** The `forEach` over cards that folds card spending into the dictionary. */
  method AccumulateCards(es0: Table, cards: seq<Card>) returns (es: Table)
    ensures es == WithCards(es0, cards)
  {
    es := es0;
    var i := 0;
    while i < |cards|
      invariant 0 <= i <= |cards|
      invariant es == WithCards(es0, cards[..i])
    {
      assert cards[..i + 1][..i] == cards[..i];
      var used := UsedOrZero(cards[i]);
      if used > 0 {
        es := Credit(es, CreditCardCategory, used, 1);
      }
      i := i + 1;
    }
    assert cards[..i] == cards;
  }

  /** Totals never increase along `es`. */
  predicate NonIncreasing(es: Table) {
    forall i, j :: 0 <= i < j < |es| ==> es[i].total >= es[j].total
  }

  /** Places `e` after every entry whose total is at least its own. */
  function InsertByTotal(sorted: Table, e: Entry): (r: Table)
    requires NonIncreasing(sorted)
    ensures NonIncreasing(r)
    ensures multiset(r) == multiset(sorted) + multiset{e}
    decreases |sorted|
  {
    if |sorted| == 0 then [e]
    else if e.total > sorted[0].total then
      ConsNonIncreasing(e, sorted);
      assert multiset([e] + sorted) == multiset{e} + multiset(sorted);
      [e] + sorted
    else
      var rest := InsertByTotal(sorted[1..], e);
      assert sorted == [sorted[0]] + sorted[1..];
      HeadBoundsRest(sorted, e, rest);
      ConsNonIncreasing(sorted[0], rest);
      [sorted[0]] + rest
  }

  /** A head no smaller than the next total keeps a table non-increasing. */
  lemma ConsNonIncreasing(x: Entry, s: Table)
    requires NonIncreasing(s)
    requires |s| == 0 || s[0].total <= x.total
    ensures NonIncreasing([x] + s)
  {
    var r := [x] + s;
    forall i, j | 0 <= i < j < |r| ensures r[i].total >= r[j].total {
      assert r[j] == s[j - 1];
      if i > 0 {
        assert r[i] == s[i - 1];
      }
    }
  }

  /** The head of a non-increasing table bounds the rest with `e` inserted. */
  lemma HeadBoundsRest(sorted: Table, e: Entry, rest: Table)
    requires NonIncreasing(sorted) && |sorted| > 0
    requires e.total <= sorted[0].total
    requires multiset(rest) == multiset(sorted[1..]) + multiset{e}
    ensures forall k :: 0 <= k < |rest| ==> rest[k].total <= sorted[0].total
  {
    forall k | 0 <= k < |rest| ensures rest[k].total <= sorted[0].total {
      var x := rest[k];
      assert x in multiset(rest);
      if x != e {
        assert x in multiset(sorted[1..]);
        var i :| 0 <= i < |sorted[1..]| && sorted[1..][i] == x;
        assert sorted[i + 1] == x;
      }
    }
  }

  /** `Object.entries(obj).sort((a, b) => b[1] - a[1])`: a stable sort by
      total, largest first. */
  function SortByTotal(es: Table): (r: Table)
    ensures NonIncreasing(r)
    ensures multiset(r) == multiset(es)
    decreases |es|
  {
    if |es| == 0 then []
    else
      var init := es[..|es| - 1];
      assert es == init + [es[|es| - 1]];
      InsertByTotal(SortByTotal(init), es[|es| - 1])
  }

  /** In a non-increasing table, whatever lies past position `k` is at
      most everything before it. */
  lemma PrefixDominates(sorted: Table, k: nat, e: Entry)
    requires NonIncreasing(sorted) && k <= |sorted|
    requires e in sorted && e !in sorted[..k]
    ensures forall x :: x in sorted[..k] ==> e.total <= x.total
  {
    var j :| 0 <= j < |sorted| && sorted[j] == e;
    assert j >= k;
    forall x | x in sorted[..k] ensures e.total <= x.total {
      var i :| 0 <= i < k && sorted[..k][i] == x;
    }
  }

  /** `.sort(...).slice(0, n)`. */
  function TopEntries(es: Table, n: nat): (top: Table)
    ensures |top| == if |es| < n then |es| else n
    ensures NonIncreasing(top)
    ensures multiset(top) <= multiset(es)
    ensures |es| <= n ==> multiset(top) == multiset(es)
    ensures forall e :: e in es && e !in top ==> forall x :: x in top ==> e.total <= x.total
  {
    var sorted := SortByTotal(es);
    var k := if |sorted| < n then |sorted| else n;
    assert sorted == sorted[..k] + sorted[k..];
    forall e | e in es && e !in sorted[..k] ensures forall x :: x in sorted[..k] ==> e.total <= x.total {
      assert e in multiset(sorted);
      PrefixDominates(sorted, k, e);
    }
    sorted[..k]
  }

  /** In a table without repeated keys, each of the first `n` entries by
      total shows its category's total. */
  lemma {:induction false} TopEntriesShowTotals(es: Table, n: nat)
    requires DistinctKeys(es)
    ensures forall e :: e in TopEntries(es, n) ==> e.total == TotalOf(es, e.category)
  {
    var top := TopEntries(es, n);
    forall e | e in top ensures e.total == TotalOf(es, e.category) {
      assert e in multiset(top);
      var i :| 0 <= i < |es| && es[i] == e;
      EntryLookup(es, i);
    }
  }

  /** A category left out of the first `n` entries is at most every shown
      total, which happens only when all `n` places are taken. */
  lemma {:induction false} TopEntriesLeaveOutSmaller(es: Table, n: nat)
    requires DistinctKeys(es)
    ensures forall c :: c in Keys(es) ==>
              (exists e :: e in TopEntries(es, n) && e.category == c)
              || (|TopEntries(es, n)| == n && forall x :: x in TopEntries(es, n) ==> TotalOf(es, c) <= x.total)
  {
    var top := TopEntries(es, n);
    forall c | c in Keys(es)
      ensures (exists e :: e in top && e.category == c)
              || (|top| == n && forall x :: x in top ==> TotalOf(es, c) <= x.total)
    {
      var i := IndexOf(es, c);
      EntryLookup(es, i);
      var e := es[i];
      assert e in multiset(es);
      if e in top {
        assert e.category == c;
      }
    }
  }
}
