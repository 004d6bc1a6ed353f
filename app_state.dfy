/** The app's in-memory state: loaded once from the persisted blob, then
    changed in place by the add-transaction form and the goal balance dialog
    (js/app.js). */
module AppState {
  import opened Calendar
  import opened Records
  import opened Selection
  import opened GoalProgress

  /** A value of the state `{ transactions, cards, goals }`. */
  datatype Snapshot = Snapshot(transactions: seq<Transaction>, cards: seq<Card>, goals: seq<Goal>)

  /** `getInitialState`: empty arrays when nothing is stored or the text does
      not parse; otherwise each array field that is an array, with goals read
      from `budgets` when `goals` is not an array. */
  function LoadState(stored: Stored): (s: Snapshot)
    ensures !stored.Parsed? ==> s == Snapshot([], [], [])
    ensures stored.Parsed? ==>
              s.transactions == ArrayOrEmpty(stored.transactions)
              && s.cards == ArrayOrEmpty(stored.cards)
              && (stored.goals.AnArray? ==> s.goals == stored.goals.items)
              && (!stored.goals.AnArray? ==> s.goals == ArrayOrEmpty(stored.budgets))
  {
    match stored
    case Parsed(txs, cards, goals, budgets) =>
      Snapshot(ArrayOrEmpty(txs), ArrayOrEmpty(cards),
               if goals.AnArray? then goals.items else ArrayOrEmpty(budgets))
    case _ => Snapshot([], [], [])
  }

  /** `saveState`: the blob written back, `{ transactions, cards, goals }`. */
  function SaveState(s: Snapshot): (stored: Stored)
    ensures stored.Parsed? && stored.budgets.Absent?
  {
    Parsed(AnArray(s.transactions), AnArray(s.cards), AnArray(s.goals), Absent)
  }

  /** Loading what was saved gives back the same state. */
  lemma LoadAfterSave(s: Snapshot)
    ensures LoadState(SaveState(s)) == s
  {
  }

  /** Data saved by older versions under `budgets` alone loads as the goals. */
  lemma BudgetsAlias(txs: seq<Transaction>, cards: seq<Card>, budgets: seq<Goal>)
    ensures LoadState(Parsed(AnArray(txs), AnArray(cards), Absent, AnArray(budgets))).goals == budgets
  {
  }

  /** The state object `state` of the dashboard and transactions pages. */
  class FinanceState {
    var transactions: seq<Transaction>
    var cards: seq<Card>
    var goals: seq<Goal>

    /** The state as a value. */
    function Contents(): Snapshot
      reads this
    {
      Snapshot(transactions, cards, goals)
    }

    /** No goal has a negative manual balance. */
    predicate BalancesNonNegative()
      reads this
    {
      forall j :: 0 <= j < |goals| ==> SavedOrZero(goals[j]) >= 0
    }

    /** `let state = getInitialState()`. */
    constructor (stored: Stored)
      ensures Contents() == LoadState(stored)
    {
      var s := LoadState(stored);
      transactions, cards, goals := s.transactions, s.cards, s.goals;
    }

    /** The transaction form: `state.transactions.push(newTransaction)`. */
    method AddTransaction(t: Transaction)
      modifies this
      ensures transactions == old(transactions) + [t]
      ensures cards == old(cards) && goals == old(goals)
    {
      transactions := transactions + [t];
    }

    /** The dialog's add button: `goal.saved = (goal.saved || 0) + v` when `v > 0`. */
    method AddToGoal(i: nat, v: int)
      requires i < |goals|
      modifies this
      ensures goals == old(goals)[i := ApplyBalanceOp(old(goals)[i], AddValue(v))]
      ensures transactions == old(transactions) && cards == old(cards)
      ensures old(BalancesNonNegative()) ==> BalancesNonNegative()
    {
      var goal := goals[i];
      if v > 0 {
        goals := goals[i := goal.(saved := Some(SavedOrZero(goal) + v))];
      }
    }

    /** The dialog's subtract button: `goal.saved = max(0, (goal.saved || 0) - v)`
        when `v > 0`. */
    method SubtractFromGoal(i: nat, v: int)
      requires i < |goals|
      modifies this
      ensures goals == old(goals)[i := ApplyBalanceOp(old(goals)[i], SubtractValue(v))]
      ensures transactions == old(transactions) && cards == old(cards)
      ensures v > 0 ==> SavedOrZero(goals[i]) >= 0
      ensures old(BalancesNonNegative()) ==> BalancesNonNegative()
    {
      var goal := goals[i];
      if v > 0 {
        var rest := SavedOrZero(goal) - v;
        goals := goals[i := goal.(saved := Some(if rest > 0 then rest else 0))];
      }
    }

    /** The dialog's reset button, once confirmed: `goal.saved = 0`. */
    method ResetGoal(i: nat)
      requires i < |goals|
      modifies this
      ensures goals == old(goals)[i := ApplyBalanceOp(old(goals)[i], ResetProgress)]
      ensures transactions == old(transactions) && cards == old(cards)
      ensures SavedOrZero(goals[i]) == 0
      ensures old(BalancesNonNegative()) ==> BalancesNonNegative()
    {
      goals := goals[i := goals[i].(saved := Some(0))];
    }
  }
}
