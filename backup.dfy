/** The backup and statistics page (js/reports.js): reading the stored state,
    importing a backup file (replacing or merging with renumbered ids), the
    CSV export rows, the monthly expense buckets, the category summary and
    the top-categories chart. */
module Backup {
  import opened Calendar
  import opened Records
  import opened Selection
  import opened CategoryTable
  import opened AppState
  import opened Dashboard
  import opened ReportView
  import opened GoalProgress

  /** The state object of this page, `{ transactions, cards, budgets }`. */
  datatype BackupState = BackupState(transactions: seq<Transaction>, cards: seq<Card>, budgets: seq<Goal>)

  const EmptyBackup: BackupState := BackupState([], [], [])

  /** `getState` as written: empty arrays when nothing is stored or the text
      does not parse, otherwise each of `transactions`, `cards` and `budgets`
      when it is an array. The `goals` key, which is where the dashboard saves
      its goals, is not read. */
  function GetStateAsWritten(stored: Stored): (b: BackupState)
    ensures !stored.Parsed? ==> b == EmptyBackup
    ensures stored.Parsed? ==>
              b.transactions == ArrayOrEmpty(stored.transactions)
              && b.cards == ArrayOrEmpty(stored.cards)
              && b.budgets == ArrayOrEmpty(stored.budgets)
  {
    match stored
    case Parsed(txs, cards, _, budgets) =>
      BackupState(ArrayOrEmpty(txs), ArrayOrEmpty(cards), ArrayOrEmpty(budgets))
    case _ => EmptyBackup
  }

  /** Whatever the dashboard saved, this page reads no budgets back. */
  lemma GetStateAsWrittenDropsGoals(s: Snapshot)
    ensures GetStateAsWritten(SaveState(s)).budgets == []
    ensures GetStateAsWritten(SaveState(s)).transactions == s.transactions
  {
  }

  /** `getState` reading the goals the way the dashboard does: `goals` when it
      is an array, `budgets` otherwise. */
  function GetState(stored: Stored): (b: BackupState)
    ensures b.transactions == LoadState(stored).transactions
    ensures b.cards == LoadState(stored).cards
    ensures b.budgets == LoadState(stored).goals
    ensures stored.Parsed? && !stored.goals.AnArray? ==> b == GetStateAsWritten(stored)
  {
    var s := LoadState(stored);
    BackupState(s.transactions, s.cards, s.goals)
  }

  /** What the dashboard saved reads back whole, goals included. */
  lemma GetStateAfterSave(s: Snapshot)
    ensures GetState(SaveState(s)) == BackupState(s.transactions, s.cards, s.goals)
  {
  }

  /** `setState(state)`: the object written has no `goals` key. */
  function SetState(b: BackupState): (stored: Stored)
    ensures stored.Parsed? && stored.goals.Absent?
  {
    Parsed(AnArray(b.transactions), AnArray(b.cards), Absent, AnArray(b.budgets))
  }

  /** The dashboard reads what this page wrote, budgets as goals. */
  lemma LoadAfterSetState(b: BackupState)
    ensures LoadState(SetState(b)) == Snapshot(b.transactions, b.cards, b.budgets)
    ensures GetState(SetState(b)) == b
  {
  }

  /** `Math.max(0, ...ids)`. */
  function MaxOrZero(ids: seq<int>): (m: int)
    ensures m >= 0
    ensures forall i :: 0 <= i < |ids| ==> ids[i] <= m
    ensures m == 0 || exists i :: 0 <= i < |ids| && ids[i] == m
    decreases |ids|
  {
    if |ids| == 0 then 0
    else
      var init := ids[..|ids| - 1];
      var m := MaxOrZero(init);
      assert forall i :: 0 <= i < |init| ==> ids[i] == init[i];
      if ids[|ids| - 1] > m then ids[|ids| - 1] else m
  }

  /** `records.map(r => r.id || 0)`; ids are integers here, so `|| 0` only
      keeps 0 as 0. */
  function TransactionIds(ts: seq<Transaction>): (ids: seq<int>)
    ensures |ids| == |ts| && forall i :: 0 <= i < |ts| ==> ids[i] == ts[i].id
  {
    seq(|ts|, i requires 0 <= i < |ts| => ts[i].id)
  }

  function CardIds(cs: seq<Card>): (ids: seq<int>)
    ensures |ids| == |cs| && forall i :: 0 <= i < |cs| ==> ids[i] == cs[i].id
  {
    seq(|cs|, i requires 0 <= i < |cs| => cs[i].id)
  }

  function GoalIds(gs: seq<Goal>): (ids: seq<int>)
    ensures |ids| == |gs| && forall i :: 0 <= i < |gs| ==> ids[i] == gs[i].id
  {
    seq(|gs|, i requires 0 <= i < |gs| => gs[i].id)
  }

  /** `Math.max(0, ...)` is an upper bound of every id and at least 0, so
      `max + k + 1` is larger than every id present, and grows with `k`. */
  lemma FreshAfterMax(ids: seq<int>, k: int)
    requires k >= 0
    ensures forall i :: 0 <= i < |ids| ==> ids[i] < MaxOrZero(ids) + k + 1
    ensures MaxOrZero(ids) + k + 1 > 0
  {
  }

  /** `importedData.transactions.forEach((t, index) => { t.id = max + index + 1;
      currentState.transactions.push(t) })` as a value. */
  function AppendTransactions(existing: seq<Transaction>, imported: seq<Transaction>): (r: seq<Transaction>)
    ensures |r| == |existing| + |imported|
  {
    var base := MaxOrZero(TransactionIds(existing));
    existing + seq(|imported|, k requires 0 <= k < |imported| => imported[k].(id := base + k + 1))
  }

  function AppendCards(existing: seq<Card>, imported: seq<Card>): (r: seq<Card>)
    ensures |r| == |existing| + |imported|
  {
    var base := MaxOrZero(CardIds(existing));
    existing + seq(|imported|, k requires 0 <= k < |imported| => imported[k].(id := base + k + 1))
  }

  function AppendGoals(existing: seq<Goal>, imported: seq<Goal>): (r: seq<Goal>)
    ensures |r| == |existing| + |imported|
  {
    var base := MaxOrZero(GoalIds(existing));
    existing + seq(|imported|, k requires 0 <= k < |imported| => imported[k].(id := base + k + 1))
  }

  /** The existing transactions stay as they were; the imported ones follow in
      order, changed only in their ids, which are increasing and larger than
      every existing id. */
  lemma AppendTransactionsFresh(existing: seq<Transaction>, imported: seq<Transaction>)
    ensures var r := AppendTransactions(existing, imported);
            var added := r[|existing|..];
            r[..|existing|] == existing
            && |added| == |imported|
            && (forall k :: 0 <= k < |added| ==> added[k] == imported[k].(id := added[k].id))
            && (forall k, l :: 0 <= k < l < |added| ==> 0 < added[k].id < added[l].id)
            && (forall i, k :: 0 <= i < |existing| && 0 <= k < |added| ==> existing[i].id < added[k].id)
  {
    FreshAfterMax(TransactionIds(existing), 0);
  }

  /** The same for cards. */
  lemma AppendCardsFresh(existing: seq<Card>, imported: seq<Card>)
    ensures var r := AppendCards(existing, imported);
            var added := r[|existing|..];
            r[..|existing|] == existing
            && |added| == |imported|
            && (forall k :: 0 <= k < |added| ==> added[k] == imported[k].(id := added[k].id))
            && (forall k, l :: 0 <= k < l < |added| ==> 0 < added[k].id < added[l].id)
            && (forall i, k :: 0 <= i < |existing| && 0 <= k < |added| ==> existing[i].id < added[k].id)
  {
    FreshAfterMax(CardIds(existing), 0);
  }

  /** The same for budgets. */
  lemma AppendGoalsFresh(existing: seq<Goal>, imported: seq<Goal>)
    ensures var r := AppendGoals(existing, imported);
            var added := r[|existing|..];
            r[..|existing|] == existing
            && |added| == |imported|
            && (forall k :: 0 <= k < |added| ==> added[k] == imported[k].(id := added[k].id))
            && (forall k, l :: 0 <= k < l < |added| ==> 0 < added[k].id < added[l].id)
            && (forall i, k :: 0 <= i < |existing| && 0 <= k < |added| ==> existing[i].id < added[k].id)
  {
    FreshAfterMax(GoalIds(existing), 0);
  }

  /** The state the merge writes back. */
  function MergedState(cur: BackupState, txs: seq<Transaction>, cards: seq<Card>, budgets: seq<Goal>): (m: BackupState)
    ensures |m.transactions| == |cur.transactions| + |txs|
    ensures |m.cards| == |cur.cards| + |cards|
    ensures |m.budgets| == |cur.budgets| + |budgets|
  {
    BackupState(AppendTransactions(cur.transactions, txs), AppendCards(cur.cards, cards),
                AppendGoals(cur.budgets, budgets))
  }

  /** The `currentState` object the merge pushes onto. */
  class MergeTarget {
    var transactions: seq<Transaction>
    var cards: seq<Card>
    var budgets: seq<Goal>

    function Contents(): BackupState
      reads this
    {
      BackupState(transactions, cards, budgets)
    }

    /** `const currentState = getState()`. */
    constructor (b: BackupState)
      ensures Contents() == b
    {
      transactions, cards, budgets := b.transactions, b.cards, b.budgets;
    }

    /** `importedData.transactions.forEach((t, index) => { t.id = max + index + 1; push(t) })`. */
    method AddTransactions(imported: seq<Transaction>)
      modifies this
      ensures transactions == AppendTransactions(old(transactions), imported)
      ensures cards == old(cards) && budgets == old(budgets)
    {
      var base := MaxOrZero(TransactionIds(transactions));
      ghost var start := transactions;
      var k := 0;
      while k < |imported|
        invariant 0 <= k <= |imported|
        invariant transactions == start + seq(k, j requires 0 <= j < k => imported[j].(id := base + j + 1))
        invariant cards == old(cards) && budgets == old(budgets)
      {
        var t := imported[k].(id := base + k + 1);
        transactions := transactions + [t];
        k := k + 1;
      }
    }

    /** The same for `importedData.cards`. */
    method AddCards(imported: seq<Card>)
      modifies this
      ensures cards == AppendCards(old(cards), imported)
      ensures transactions == old(transactions) && budgets == old(budgets)
    {
      var base := MaxOrZero(CardIds(cards));
      ghost var start := cards;
      var k := 0;
      while k < |imported|
        invariant 0 <= k <= |imported|
        invariant cards == start + seq(k, j requires 0 <= j < k => imported[j].(id := base + j + 1))
        invariant transactions == old(transactions) && budgets == old(budgets)
      {
        var c := imported[k].(id := base + k + 1);
        cards := cards + [c];
        k := k + 1;
      }
    }

    /** The same for `importedData.budgets`. */
    method AddBudgets(imported: seq<Goal>)
      modifies this
      ensures budgets == AppendGoals(old(budgets), imported)
      ensures transactions == old(transactions) && cards == old(cards)
    {
      var base := MaxOrZero(GoalIds(budgets));
      ghost var start := budgets;
      var k := 0;
      while k < |imported|
        invariant 0 <= k <= |imported|
        invariant budgets == start + seq(k, j requires 0 <= j < k => imported[j].(id := base + j + 1))
        invariant transactions == old(transactions) && cards == old(cards)
      {
        var g := imported[k].(id := base + k + 1);
        budgets := budgets + [g];
        k := k + 1;
      }
    }
  }

  /** What an import leaves in storage: nothing (an error is shown) or the
      object written. */
  datatype ImportOutcome = Failed | Written(blob: Stored)

  /** The file passes the check when none of `transactions`, `cards` and
      `budgets` is missing or otherwise falsy; a truthy non-array passes. */
  predicate PassesCheck(file: Stored) {
    file.Parsed? && !file.transactions.Absent? && !file.cards.Absent? && !file.budgets.Absent?
  }

  /** The merge branch of `importFromFile` on the state `base` it read:
      appends the renumbered lists and writes the result, or fails, writing
      nothing, at the first field whose `forEach` does not exist. */
  method MergeImport(file: Stored, base: BackupState) returns (outcome: ImportOutcome)
    requires file.Parsed?
    ensures if file.transactions.AnArray? && file.cards.AnArray? && file.budgets.AnArray?
            then outcome == Written(SetState(MergedState(base, file.transactions.items,
                                                         file.cards.items, file.budgets.items)))
            else outcome == Failed
  {
    var target := new MergeTarget(base);
    if !file.transactions.AnArray? {
      return Failed;
    }
    target.AddTransactions(file.transactions.items);
    if !file.cards.AnArray? {
      return Failed;
    }
    target.AddCards(file.cards.items);
    if !file.budgets.AnArray? {
      return Failed;
    }
    target.AddBudgets(file.budgets.items);
    outcome := Written(SetState(target.Contents()));
  }

  /** `importFromFile` once the file is read, as written: `replace` is the
      answer to the confirm dialog. Replacing writes the imported object as it
      is; merging starts from what `getState` reads, which has no goals of the
      dashboard (see GetStateAsWrittenDropsGoals). */
  method ImportFromFile(file: Stored, replace: bool, current: Stored) returns (outcome: ImportOutcome)
    ensures !PassesCheck(file) ==> outcome == Failed
    ensures PassesCheck(file) && replace ==> outcome == Written(file)
    ensures PassesCheck(file) && !replace ==>
              if file.transactions.AnArray? && file.cards.AnArray? && file.budgets.AnArray?
              then outcome == Written(SetState(MergedState(GetStateAsWritten(current), file.transactions.items,
                                                           file.cards.items, file.budgets.items)))
              else outcome == Failed
  {
    if !PassesCheck(file) {
      return Failed;
    }
    if replace {
      return Written(file);
    }
    outcome := MergeImport(file, GetStateAsWritten(current));
  }

  /** `importFromFile` with the corrected reader: the merge starts from the
      lists the dashboard loads, its goals included. */
  method ImportFromFileCorrected(file: Stored, replace: bool, current: Stored) returns (outcome: ImportOutcome)
    ensures !PassesCheck(file) ==> outcome == Failed
    ensures PassesCheck(file) && replace ==> outcome == Written(file)
    ensures PassesCheck(file) && !replace ==>
              if file.transactions.AnArray? && file.cards.AnArray? && file.budgets.AnArray?
              then outcome == Written(SetState(MergedState(GetState(current), file.transactions.items,
                                                           file.cards.items, file.budgets.items)))
              else outcome == Failed
  {
    if !PassesCheck(file) {
      return Failed;
    }
    if replace {
      return Written(file);
    }
    outcome := MergeImport(file, GetState(current));
  }

  /** After a merge into what the dashboard saved, the dashboard finds its
      own goals followed by the imported budgets. */
  lemma MergeKeepsDashboardGoals(s: Snapshot, txs: seq<Transaction>, cards: seq<Card>, budgets: seq<Goal>)
    ensures var merged := MergedState(GetState(SaveState(s)), txs, cards, budgets);
            LoadState(SetState(merged)).goals[..|s.goals|] == s.goals
            && |LoadState(SetState(merged)).goals| == |s.goals| + |budgets|
  {
    GetStateAfterSave(s);
  }

  /** A backup file with empty lists, as exported from an empty state. */
  const EmptyBackupFile: Stored := Parsed(AnArray([]), AnArray([]), Absent, AnArray([]))

  /** As written, merging a backup that brings no budgets into what the
      dashboard saved loses the dashboard's goal: the blob `ImportFromFile`
      writes for this input loads with no goals. */
  lemma MergeAsWrittenLosesGoals()
    ensures var g := Goal(1, "Viagem", "Lazer", 500000, "savings", Some(10000));
            var saved := SaveState(Snapshot([], [], [g]));
            var file := EmptyBackupFile;
            var merged := MergedState(GetStateAsWritten(saved), file.transactions.items,
                                      file.cards.items, file.budgets.items);
            PassesCheck(file) && LoadState(saved).goals == [g] && LoadState(SetState(merged)).goals == []
  {
    var g := Goal(1, "Viagem", "Lazer", 500000, "savings", Some(10000));
    GetStateAsWrittenDropsGoals(Snapshot([], [], [g]));
  }

  /** The same input run through the as-written import: the dashboard had one
      goal before, and none after. */
  method ImportLosesGoalsExample() returns (before: seq<Goal>, after: ImportOutcome)
    ensures |before| == 1
    ensures after.Written? && LoadState(after.blob).goals == []
  {
    var g := Goal(1, "Viagem", "Lazer", 500000, "savings", Some(10000));
    var saved := SaveState(Snapshot([], [], [g]));
    MergeAsWrittenLosesGoals();
    before := LoadState(saved).goals;
    after := ImportFromFile(EmptyBackupFile, false, saved);
  }

  /** The same input through the corrected import keeps the goal. */
  method ImportKeepsGoalsExample() returns (before: seq<Goal>, after: ImportOutcome)
    ensures |before| == 1
    ensures after.Written? && LoadState(after.blob).goals == before
  {
    var g := Goal(1, "Viagem", "Lazer", 500000, "savings", Some(10000));
    var saved := SaveState(Snapshot([], [], [g]));
    MergeKeepsDashboardGoals(Snapshot([], [], [g]), [], [], []);
    before := LoadState(saved).goals;
    after := ImportFromFileCorrected(EmptyBackupFile, false, saved);
  }

  /** One value of a CSV row: a double-quoted text, a bare number, a date as
      stored (`YYYY-MM-DD`), or the text `undefined` of an absent field. */
  datatype Cell = Quoted(text: string) | Number(value: int) | DateCell(date: Date) | Undefined

  /** A line of the CSV text: a fixed text or a comma-separated row. */
  datatype Line = Plain(text: string) | Row(cells: seq<Cell>)

  function KindName(k: TxKind): string {
    match k
    case Income => "income"
    case Outcome => "outcome"
  }

  function TransactionRow(t: Transaction): Line {
    Row([Quoted(t.name), Quoted(t.category), Quoted(KindName(t.kind)), Number(t.amount),
         DateCell(t.date), Quoted(t.status)])
  }

  function OptionalNumber(o: Option<int>): Cell {
    match o
    case Some(v) => Number(v)
    case None => Undefined
  }

  /** A card's row: `used` defaults to 0 and `available` is `limit - used`. */
  function CardRow(c: Card): (line: Line)
    ensures line.Row? && |line.cells| == 7 && line.cells[3] == Number(UsedOrZero(c))
    ensures line.cells[2].Number? && line.cells[4].Number?
            && line.cells[4].value == line.cells[2].value - line.cells[3].value
  {
    var used := UsedOrZero(c);
    Row([Quoted(c.name), Quoted(c.brand), Number(c.limit), Number(used), Number(c.limit - used),
         OptionalNumber(c.closingDay), OptionalNumber(c.dueDay)])
  }

  /** The export's available figure is the one the dashboard shows on the card. */
  lemma CardRowMatchesCardFace(c: Card)
    ensures CardRow(c).cells[4] == Number(CardNumbers(c).available)
  {
  }

  function BudgetRow(g: Goal): Line {
    Row([Quoted(g.name), Quoted(g.category), Number(g.amount)])
  }

  /** `exportToExcel`'s `csvContent`, line by line: a heading and a column
      line per section, one row per record, and two empty lines between
      sections. */
  method ExportCsv(b: BackupState) returns (lines: seq<Line>)
    ensures |lines| == 10 + |b.transactions| + |b.cards| + |b.budgets|
    ensures lines[..2] == [Plain("TRANSAÇÕES"), Plain("Nome,Categoria,Tipo,Valor,Data,Status")]
    ensures forall i :: 0 <= i < |b.transactions| ==> lines[2 + i] == TransactionRow(b.transactions[i])
    ensures var c := 2 + |b.transactions|;
            lines[c..c + 4] == [Plain(""), Plain(""), Plain("CARTÕES"),
                                Plain("Nome,Bandeira,Limite,Usado,Disponível,Fechamento,Vencimento")]
            && forall i :: 0 <= i < |b.cards| ==> lines[c + 4 + i] == CardRow(b.cards[i])
    ensures var o := 6 + |b.transactions| + |b.cards|;
            lines[o..o + 4] == [Plain(""), Plain(""), Plain("ORÇAMENTOS"), Plain("Nome,Categoria,Valor Planejado")]
            && forall i :: 0 <= i < |b.budgets| ==> lines[o + 4 + i] == BudgetRow(b.budgets[i])
  {
    lines := [Plain("TRANSAÇÕES"), Plain("Nome,Categoria,Tipo,Valor,Data,Status")];
    lines := AppendTransactionRows(lines, b.transactions);
    var c := |lines|;
    lines := lines + [Plain(""), Plain(""), Plain("CARTÕES"),
                      Plain("Nome,Bandeira,Limite,Usado,Disponível,Fechamento,Vencimento")];
    ghost var afterTransactions := lines;
    lines := AppendCardRows(lines, b.cards);
    var o := |lines|;
    lines := lines + [Plain(""), Plain(""), Plain("ORÇAMENTOS"), Plain("Nome,Categoria,Valor Planejado")];
    ghost var afterCards := lines;
    lines := AppendBudgetRows(lines, b.budgets);
    assert lines[..o + 4] == afterCards;
    assert afterCards[..c + 4] == afterTransactions;
    assert lines[..c + 4] == afterTransactions by {
      assert lines[..c + 4] == lines[..o + 4][..c + 4];
    }
    assert lines[c..c + 4] == afterTransactions[c..c + 4] by {
      assert lines[c..c + 4] == lines[..c + 4][c..c + 4];
    }
    assert lines[..2] == afterTransactions[..2] by {
      assert lines[..2] == lines[..c + 4][..2];
    }
  }

  /** The `forEach` over the transactions: one row each, after `lines0`. */
  method AppendTransactionRows(lines0: seq<Line>, ts: seq<Transaction>) returns (lines: seq<Line>)
    ensures |lines| == |lines0| + |ts| && lines[..|lines0|] == lines0
    ensures forall k :: 0 <= k < |ts| ==> lines[|lines0| + k] == TransactionRow(ts[k])
  {
    lines := lines0;
    var i := 0;
    while i < |ts|
      invariant 0 <= i <= |ts|
      invariant |lines| == |lines0| + i && lines[..|lines0|] == lines0
      invariant forall k :: 0 <= k < i ==> lines[|lines0| + k] == TransactionRow(ts[k])
    {
      lines := lines + [TransactionRow(ts[i])];
      i := i + 1;
    }
  }

  /** The `forEach` over the cards: one row each, after `lines0`. */
  method AppendCardRows(lines0: seq<Line>, cards: seq<Card>) returns (lines: seq<Line>)
    ensures |lines| == |lines0| + |cards| && lines[..|lines0|] == lines0
    ensures forall k :: 0 <= k < |cards| ==> lines[|lines0| + k] == CardRow(cards[k])
  {
    lines := lines0;
    var i := 0;
    while i < |cards|
      invariant 0 <= i <= |cards|
      invariant |lines| == |lines0| + i && lines[..|lines0|] == lines0
      invariant forall k :: 0 <= k < i ==> lines[|lines0| + k] == CardRow(cards[k])
    {
      lines := lines + [CardRow(cards[i])];
      i := i + 1;
    }
  }

  /** The `forEach` over the budgets: one row each, after `lines0`. */
  method AppendBudgetRows(lines0: seq<Line>, budgets: seq<Goal>) returns (lines: seq<Line>)
    ensures |lines| == |lines0| + |budgets| && lines[..|lines0|] == lines0
    ensures forall k :: 0 <= k < |budgets| ==> lines[|lines0| + k] == BudgetRow(budgets[k])
  {
    lines := lines0;
    var i := 0;
    while i < |budgets|
      invariant 0 <= i <= |budgets|
      invariant |lines| == |lines0| + i && lines[..|lines0|] == lines0
      invariant forall k :: 0 <= k < i ==> lines[|lines0| + k] == BudgetRow(budgets[k])
    {
      lines := lines + [BudgetRow(budgets[i])];
      i := i + 1;
    }
  }

  /** The month index of every transaction's date. */
  function MonthsOf(txs: seq<Transaction>): (ms: seq<int>)
    ensures |ms| == |txs| && forall i :: 0 <= i < |txs| ==> ms[i] == MonthIndex(txs[i].date)
  {
    seq(|txs|, i requires 0 <= i < |txs| => MonthIndex(txs[i].date))
  }

  /** `Math.min(...)` of a non-empty list. */
  function MinOf(xs: seq<int>): int
    requires |xs| > 0
    decreases |xs|
  {
    if |xs| == 1 then xs[0]
    else
      var m := MinOf(xs[..|xs| - 1]);
      if xs[|xs| - 1] < m then xs[|xs| - 1] else m
  }

  /** `Math.max(...)` of a non-empty list. */
  function MaxOf(xs: seq<int>): int
    requires |xs| > 0
    decreases |xs|
  {
    if |xs| == 1 then xs[0]
    else
      var m := MaxOf(xs[..|xs| - 1]);
      if xs[|xs| - 1] > m then xs[|xs| - 1] else m
  }

  /** The minimum is a lower bound that occurs in the list. */
  lemma {:induction false} MinOfIsLeast(xs: seq<int>)
    requires |xs| > 0
    ensures forall i :: 0 <= i < |xs| ==> MinOf(xs) <= xs[i]
    ensures exists i :: 0 <= i < |xs| && xs[i] == MinOf(xs)
    decreases |xs|
  {
    if |xs| > 1 {
      var init := xs[..|xs| - 1];
      MinOfIsLeast(init);
      assert forall i :: 0 <= i < |init| ==> xs[i] == init[i];
      if xs[|xs| - 1] < MinOf(init) {
        assert xs[|xs| - 1] == MinOf(xs);
      } else {
        var j :| 0 <= j < |init| && init[j] == MinOf(init);
        assert xs[j] == MinOf(xs);
      }
    } else {
      assert xs[0] == MinOf(xs);
    }
  }

  /** The maximum is an upper bound that occurs in the list. */
  lemma {:induction false} MaxOfIsGreatest(xs: seq<int>)
    requires |xs| > 0
    ensures forall i :: 0 <= i < |xs| ==> xs[i] <= MaxOf(xs)
    ensures exists i :: 0 <= i < |xs| && xs[i] == MaxOf(xs)
    decreases |xs|
  {
    if |xs| > 1 {
      var init := xs[..|xs| - 1];
      MaxOfIsGreatest(init);
      assert forall i :: 0 <= i < |init| ==> xs[i] == init[i];
      if xs[|xs| - 1] > MaxOf(init) {
        assert xs[|xs| - 1] == MaxOf(xs);
      } else {
        var j :| 0 <= j < |init| && init[j] == MaxOf(init);
        assert xs[j] == MaxOf(xs);
      }
    } else {
      assert xs[0] == MaxOf(xs);
    }
  }

  /** What `renderMonthlyChart` adds to the most recent month: the sum of
      every card's `used`, when positive. */
  function CardExtra(cards: seq<Card>): int {
    if TotalCardUsed(cards) > 0 then TotalCardUsed(cards) else 0
  }

  /** The outcome totals of the `n` consecutive months from month index `first`. */
  function MonthTotals(txs: seq<Transaction>, first: int, n: nat): (ms: seq<int>)
    ensures |ms| == n
    decreases n
  {
    if n == 0 then [] else MonthTotals(txs, first, n - 1) + [Total(txs, OutcomesInMonth(first + n - 1))]
  }

  /** Bucket `k` holds the outcomes of month `first + k`; with no
      transactions every bucket is 0. */
  lemma {:induction false} MonthTotalsAt(txs: seq<Transaction>, first: int, n: nat)
    ensures forall k :: 0 <= k < n ==> MonthTotals(txs, first, n)[k] == Total(txs, OutcomesInMonth(first + k))
    ensures |txs| == 0 ==> forall k :: 0 <= k < n ==> MonthTotals(txs, first, n)[k] == 0
    decreases n
  {
    if n > 0 {
      MonthTotalsAt(txs, first, n - 1);
    }
  }

  /** One more transaction adds its amount to the bucket of its month, if it
      is an outcome and that month is in range. */
  lemma MonthTotalsStep(txs: seq<Transaction>, i: nat, first: int, n: nat)
    requires i < |txs|
    ensures var t, before := txs[i], MonthTotals(txs[..i], first, n);
            MonthTotals(txs[..i + 1], first, n)
            == if t.kind == Outcome && first <= MonthIndex(t.date) < first + n
               then before[MonthIndex(t.date) - first := before[MonthIndex(t.date) - first] + t.amount]
               else before
  {
    var t, before, after := txs[i], MonthTotals(txs[..i], first, n), MonthTotals(txs[..i + 1], first, n);
    MonthTotalsAt(txs[..i], first, n);
    MonthTotalsAt(txs[..i + 1], first, n);
    forall k | 0 <= k < n
      ensures after[k] == before[k] + (if t.kind == Outcome && MonthIndex(t.date) == first + k then t.amount else 0)
    {
      StepTotals(txs, i, OutcomesInMonth(first + k));
    }
  }

  /** The minimum is at most the maximum. */
  lemma {:induction false} MinAtMostMax(xs: seq<int>)
    requires |xs| > 0
    ensures MinOf(xs) <= MaxOf(xs)
    decreases |xs|
  {
    if |xs| > 1 {
      MinAtMostMax(xs[..|xs| - 1]);
    }
  }

  /** The month of the earliest and of the latest transaction (`Math.min` and
      `Math.max` over the dates, then their months). */
  function MonthSpan(txs: seq<Transaction>): (int, int)
    requires |txs| > 0
  {
    var months := MonthsOf(txs);
    (MinOf(months), MaxOf(months))
  }

  /** Every transaction's month lies in the span, and both ends are some
      transaction's month. */
  lemma MonthSpanBounds(txs: seq<Transaction>)
    requires |txs| > 0
    ensures MonthSpan(txs).0 <= MonthSpan(txs).1
    ensures forall i :: 0 <= i < |txs| ==> MonthSpan(txs).0 <= MonthIndex(txs[i].date) <= MonthSpan(txs).1
    ensures exists i :: 0 <= i < |txs| && MonthIndex(txs[i].date) == MonthSpan(txs).0
    ensures exists i :: 0 <= i < |txs| && MonthIndex(txs[i].date) == MonthSpan(txs).1
  {
    var months := MonthsOf(txs);
    MinOfIsLeast(months);
    MaxOfIsGreatest(months);
    assert forall i :: 0 <= i < |txs| ==> months[i] == MonthIndex(txs[i].date);
  }

  /** `renderMonthlyChart`'s `monthlyData`: one bucket per month from the
      month of the earliest transaction to that of the latest, in order,
      starting at month index `first`; each holds the outcomes of its month,
      and the last one also the card spending. No transactions, no buckets. */
  method MonthlyBuckets(txs: seq<Transaction>, cards: seq<Card>) returns (first: int, amounts: seq<int>)
    ensures |txs| == 0 ==> amounts == []
    ensures |txs| > 0 ==> (first, first + |amounts| - 1) == MonthSpan(txs)
    ensures forall k :: 0 <= k < |amounts| ==>
              amounts[k] == Total(txs, OutcomesInMonth(first + k))
                            + (if k == |amounts| - 1 then CardExtra(cards) else 0)
  {
    if |txs| == 0 {
      return 0, [];
    }
    var last;
    first, last := MonthSpan(txs).0, MonthSpan(txs).1;
    MinAtMostMax(MonthsOf(txs));
    amounts := EmptyMonths(first, last);
    amounts := AddOutcomes(txs, first, amounts);
    var n := |amounts|;
    ghost var plain := amounts;
    if TotalCardUsed(cards) > 0 {
      amounts := amounts[n - 1 := amounts[n - 1] + TotalCardUsed(cards)];
    }
    CardOnLastBucket(txs, cards, first, plain, amounts);
  }

  /** The `while (currentDate <= endDate)` loop: one zero bucket per month
      from `first` to `last`. */
  method EmptyMonths(first: int, last: int) returns (amounts: seq<int>)
    requires first <= last
    ensures |amounts| == last - first + 1
    ensures forall k :: 0 <= k < |amounts| ==> amounts[k] == 0
  {
    amounts := [];
    var month := first;
    while month <= last
      invariant first <= month <= last + 1
      invariant |amounts| == month - first
      invariant forall k :: 0 <= k < |amounts| ==> amounts[k] == 0
    {
      amounts := amounts + [0];
      month := month + 1;
    }
  }

  /** The `forEach` over the outcomes: each is added to the bucket of its
      month, when there is one. */
  method AddOutcomes(txs: seq<Transaction>, first: int, zeros: seq<int>) returns (amounts: seq<int>)
    requires forall k :: 0 <= k < |zeros| ==> zeros[k] == 0
    ensures amounts == MonthTotals(txs, first, |zeros|)
  {
    var n := |zeros|;
    amounts := zeros;
    MonthTotalsAt(txs[..0], first, n);
    assert amounts == MonthTotals(txs[..0], first, n);
    var i := 0;
    while i < |txs|
      invariant 0 <= i <= |txs|
      invariant amounts == MonthTotals(txs[..i], first, n)
    {
      var t := txs[i];
      MonthTotalsStep(txs, i, first, n);
      if t.kind == Outcome {
        var m := MonthIndex(t.date) - first;
        if 0 <= m < n {
          amounts := amounts[m := amounts[m] + t.amount];
        }
      }
      i := i + 1;
    }
    assert txs[..i] == txs;
  }

  /** Adding the card spending to the last of the monthly totals. */
  lemma CardOnLastBucket(txs: seq<Transaction>, cards: seq<Card>, first: int, plain: seq<int>, amounts: seq<int>)
    requires |plain| > 0 && plain == MonthTotals(txs, first, |plain|)
    requires amounts == plain[|plain| - 1 := plain[|plain| - 1] + CardExtra(cards)]
    ensures forall k :: 0 <= k < |amounts| ==>
              amounts[k] == Total(txs, OutcomesInMonth(first + k))
                            + (if k == |amounts| - 1 then CardExtra(cards) else 0)
  {
    MonthTotalsAt(txs, first, |plain|);
  }

  /** Outcomes whose months all lie in `first..last` sum to the outcomes of
      that span. */
  lemma {:induction false} SpanCoversAll(txs: seq<Transaction>, first: int, last: int)
    requires forall i :: 0 <= i < |txs| ==> first <= MonthIndex(txs[i].date) <= last
    ensures Total(txs, OutcomesInMonths(first, last)) == Total(txs, Outcomes)
    decreases |txs|
  {
    if |txs| > 0 {
      var init := txs[..|txs| - 1];
      assert forall i :: 0 <= i < |init| ==> init[i] == txs[i];
      SpanCoversAll(init, first, last);
    }
  }

  /** Adding `x` to the last element adds `x` to the sum. */
  lemma SumBumpLast(xs: seq<int>, ys: seq<int>, x: int)
    requires |xs| == |ys| > 0
    requires forall k :: 0 <= k < |xs| - 1 ==> ys[k] == xs[k]
    requires ys[|ys| - 1] == xs[|xs| - 1] + x
    ensures SumOf(ys) == SumOf(xs) + x
  {
    assert ys[..|ys| - 1] == xs[..|xs| - 1];
  }

  /** The buckets add up to all outcomes plus the card spending: no outcome
      falls outside the range of months. */
  lemma BucketsAddUp(txs: seq<Transaction>, cards: seq<Card>, first: int, amounts: seq<int>)
    requires |txs| > 0 && (first, first + |amounts| - 1) == MonthSpan(txs)
    requires forall k :: 0 <= k < |amounts| ==>
               amounts[k] == Total(txs, OutcomesInMonth(first + k))
                             + (if k == |amounts| - 1 then CardExtra(cards) else 0)
    ensures SumOf(amounts) == Total(txs, Outcomes) + CardExtra(cards)
  {
    MonthSpanBounds(txs);
    BucketsSumSpan(txs, cards, first, amounts);
    SpanCoversAll(txs, first, first + |amounts| - 1);
  }

  /** The buckets add up to the outcomes of their span of months plus the
      card spending. */
  lemma BucketsSumSpan(txs: seq<Transaction>, cards: seq<Card>, first: int, amounts: seq<int>)
    requires |amounts| > 0
    requires forall k :: 0 <= k < |amounts| ==>
               amounts[k] == Total(txs, OutcomesInMonth(first + k))
                             + (if k == |amounts| - 1 then CardExtra(cards) else 0)
    ensures SumOf(amounts) == Total(txs, OutcomesInMonths(first, first + |amounts| - 1)) + CardExtra(cards)
  {
    var plain := MonthTotals(txs, first, |amounts|);
    MonthTotalsAt(txs, first, |amounts|);
    SeriesAddsUp(txs, plain, first);
    SumBumpLast(plain, amounts, CardExtra(cards));
  }

  /** `renderCategorySummary`'s dictionary: outcome totals and counts per
      category, and, when the cards' `used` adds up to more than 0, that sum
      added to the credit-card category together with the number of cards
      with `used > 0`. */
  function SummaryAll(txs: seq<Transaction>, cards: seq<Card>): (es: Table)
    ensures DistinctKeys(es)
    ensures Keys(es) == OutcomeCategories(txs) + (if TotalCardUsed(cards) > 0 then {CreditCardCategory} else {})
    ensures forall c :: c != CreditCardCategory ==>
              TotalOf(es, c) == Total(txs, OutcomesIn(c)) && CountOf(es, c) == Count(txs, OutcomesIn(c))
    ensures TotalOf(es, CreditCardCategory) == Total(txs, OutcomesIn(CreditCardCategory)) + CardExtra(cards)
    ensures CountOf(es, CreditCardCategory)
            == Count(txs, OutcomesIn(CreditCardCategory)) + (if TotalCardUsed(cards) > 0 then CardsInUse(cards) else 0)
    ensures SumTotals(es) == Total(txs, Outcomes) + CardExtra(cards)
  {
    var es := ByCategory(txs);
    if TotalCardUsed(cards) > 0 then Credit(es, CreditCardCategory, TotalCardUsed(cards), CardsInUse(cards)) else es
  }

  /** The two `forEach` loops and the card step, with the running `totalSpent`. */
  method CategorySummaryAll(txs: seq<Transaction>, cards: seq<Card>)
    returns (categoryData: Table, totalSpent: int, rows: Table)
    ensures categoryData == SummaryAll(txs, cards)
    ensures totalSpent == SumTotals(categoryData)
    ensures totalSpent == Total(txs, Outcomes) + CardExtra(cards)
    ensures NonIncreasing(rows) && multiset(rows) == multiset(categoryData)
  {
    categoryData, totalSpent := SummariseOutcomes(txs);
    var totalCardSpent := TotalCardUsed(cards);
    if totalCardSpent > 0 {
      categoryData := Credit(categoryData, CreditCardCategory, totalCardSpent, CardsInUse(cards));
      totalSpent := totalSpent + totalCardSpent;
    }
    rows := SortByTotal(categoryData);
  }

  /** The `forEach` over the outcomes: each is credited to its category and
      added to the running `totalSpent`. */
  method SummariseOutcomes(txs: seq<Transaction>) returns (categoryData: Table, totalSpent: int)
    ensures categoryData == ByCategory(txs)
    ensures totalSpent == SumTotals(categoryData)
  {
    categoryData, totalSpent := [], 0;
    var i := 0;
    while i < |txs|
      invariant 0 <= i <= |txs|
      invariant categoryData == ByCategory(txs[..i])
      invariant totalSpent == SumTotals(categoryData)
    {
      assert txs[..i + 1][..i] == txs[..i];
      var t := txs[i];
      if t.kind == Outcome {
        categoryData := Credit(categoryData, t.category, t.amount, 1);
        totalSpent := totalSpent + t.amount;
      }
      i := i + 1;
    }
    assert txs[..i] == txs;
  }

  /** Every row of the summary counts at least one contribution, so the
      average column never takes its `count > 0` fallback. */
  lemma SummaryCountsPositive(txs: seq<Transaction>, cards: seq<Card>)
    ensures forall i :: 0 <= i < |SummaryAll(txs, cards)| ==> SummaryAll(txs, cards)[i].count >= 1
  {
    var es := SummaryAll(txs, cards);
    CardsInUseFacts(cards);
    forall i | 0 <= i < |es| ensures es[i].count >= 1 {
      var c := es[i].category;
      assert c in Keys(es);
      EntryLookup(es, i);
      CategoryTotals(txs, c);
    }
  }

  /** The average column: `count > 0 ? total / count : 0`. */
  function Average(e: Entry): (avg: real)
    ensures e.count > 0 ==> avg * (e.count as real) == e.total as real
    ensures e.count == 0 ==> avg == 0.0
  {
    if e.count > 0 then (e.total as real) / (e.count as real) else 0.0
  }

  /** The percentage column summed over rows: each row's
      `totalSpent > 0 ? total / totalSpent * 100 : 0`. */
  function SumShares(es: Table, whole: int): real
    decreases |es|
  {
    if |es| == 0 then 0.0 else SumShares(es[..|es| - 1], whole) + Percent(es[|es| - 1].total, whole)
  }

  /** Shares of a positive whole add up to 100 times the rows' sum over the whole. */
  lemma {:induction false} SharesOfWhole(es: Table, whole: int)
    requires whole > 0
    ensures SumShares(es, whole) * (whole as real) == (SumTotals(es) as real) * 100.0
    decreases |es|
  {
    if |es| > 0 {
      var init, e := es[..|es| - 1], es[|es| - 1];
      SharesOfWhole(init, whole);
      var a, b := SumShares(init, whole), Percent(e.total, whole);
      assert (a + b) * (whole as real) == a * (whole as real) + b * (whole as real);
    }
  }

  /** The percentage column of a table adds up to 100 whenever its totals
      sum to something positive, as the summary's do when `totalSpent > 0`. */
  lemma SharesAddUp(es: Table)
    requires SumTotals(es) > 0
    ensures SumShares(es, SumTotals(es)) == 100.0
  {
    var w := SumTotals(es);
    SharesOfWhole(es, w);
    ScaleCancels(SumShares(es, w), 100.0, w as real);
  }

  /** `x * w == y * w` with `w > 0` gives `x == y`. */
  lemma ScaleCancels(x: real, y: real, w: real)
    requires w > 0.0 && x * w == y * w
    ensures x == y
  {
  }

  /** `renderTopCategoriesChart`'s dictionary: outcome totals per category,
      where a positive card sum replaces whatever the credit-card category
      held. */
  function ChartTotals(txs: seq<Transaction>, cards: seq<Card>): (es: Table)
    ensures DistinctKeys(es)
    ensures Keys(es) == OutcomeCategories(txs) + (if TotalCardUsed(cards) > 0 then {CreditCardCategory} else {})
    ensures forall c :: c != CreditCardCategory ==> TotalOf(es, c) == Total(txs, OutcomesIn(c))
    ensures TotalOf(es, CreditCardCategory)
            == if TotalCardUsed(cards) > 0 then TotalCardUsed(cards) else Total(txs, OutcomesIn(CreditCardCategory))
  {
    var es := ByCategory(txs);
    if TotalCardUsed(cards) > 0 then SetTotal(es, CreditCardCategory, TotalCardUsed(cards)) else es
  }

  /** The chart's five bars: the dictionary built by the `forEach` loop and
      the card step, sorted by total and cut to five. */
  method TopCategoriesChart(txs: seq<Transaction>, cards: seq<Card>) returns (top: Table)
    ensures top == TopEntries(ChartTotals(txs, cards), 5)
    ensures |top| <= 5 && NonIncreasing(top)
    ensures forall e :: e in top ==> e.total == TotalOf(ChartTotals(txs, cards), e.category)
    ensures forall c :: c in Keys(ChartTotals(txs, cards)) ==>
              (exists e :: e in top && e.category == c)
              || (|top| == 5 && forall x :: x in top ==> TotalOf(ChartTotals(txs, cards), c) <= x.total)
  {
    var categoryTotals := AccumulateOutcomes(txs);
    var totalCardUsed := TotalCardUsed(cards);
    if totalCardUsed > 0 {
      categoryTotals := SetTotal(categoryTotals, CreditCardCategory, totalCardUsed);
    }
    top := TopEntries(categoryTotals, 5);
    TopEntriesShowTotals(categoryTotals, 5);
    TopEntriesLeaveOutSmaller(categoryTotals, 5);
  }

  /** The chart replaces the credit-card total where the summary table adds
      to it: with card outcomes recorded as well, the two disagree. */
  lemma ChartAndSummaryDisagree(txs: seq<Transaction>, cards: seq<Card>)
    requires TotalCardUsed(cards) > 0
    ensures TotalOf(SummaryAll(txs, cards), CreditCardCategory)
            == TotalOf(ChartTotals(txs, cards), CreditCardCategory) + Total(txs, OutcomesIn(CreditCardCategory))
  {
  }
}
