/** The records the finance app keeps: transactions, credit cards and goals
    (called budgets by older stored data), and the persisted blob they are
    read from. Money is held as integer cents. */
module Records {
  import opened Calendar

  datatype Option<T> = None | Some(value: T)

  datatype Result<T, E> = Ok(value: T) | Err(error: E)

  /** A select control's value: the option "all" or one chosen value. */
  datatype Choice<T> = All | Only(value: T)

  /** `income` or `outcome` (an expense). */
  datatype TxKind = Income | Outcome

  /** One income or expense. `status` (paid, received, pending) is carried
      but never affects a computation. */
  datatype Transaction = Transaction(
    id: int,
    name: string,
    amount: int,
    kind: TxKind,
    category: string,
    date: Date,
    status: string)

  /** A credit card; `used` may be absent in stored data and may exceed `limit`. */
  datatype Card = Card(
    id: int,
    name: string,
    brand: string,
    limit: int,
    used: Option<int>,
    closingDay: Option<int>,
    dueDay: Option<int>)

  /** A goal. `goalType` is the stored type string, "" when absent;
      `saved` is the manually accumulated balance, possibly absent. */
  datatype Goal = Goal(
    id: int,
    name: string,
    category: string,
    amount: int,
    goalType: string,
    saved: Option<int>)

  /** The category into which card spending is folded. */
  const CreditCardCategory: string := "Cartão de Crédito"

  /** `card.used || 0`. */
  function UsedOrZero(c: Card): int {
    match c.used
    case Some(u) => u
    case None => 0
  }

  /** `goal.saved || 0`. */
  function SavedOrZero(g: Goal): int {
    match g.saved
    case Some(s) => s
    case None => 0
  }

  /** `cards.reduce((acc, c) => acc + (c.used || 0), 0)`. */
  function TotalCardUsed(cards: seq<Card>): int
    decreases |cards|
  {
    if |cards| == 0 then 0
    else TotalCardUsed(cards[..|cards| - 1]) + UsedOrZero(cards[|cards| - 1])
  }

  /** The sum of `used` over the cards whose `used > 0`. */
  function PositiveCardUsed(cards: seq<Card>): (total: int)
    ensures total >= 0
    decreases |cards|
  {
    if |cards| == 0 then 0
    else
      var c := cards[|cards| - 1];
      PositiveCardUsed(cards[..|cards| - 1]) + (if UsedOrZero(c) > 0 then UsedOrZero(c) else 0)
  }

  /** `cards.filter(c => c.used > 0).length`. */
  function CardsInUse(cards: seq<Card>): nat
    decreases |cards|
  {
    if |cards| == 0 then 0
    else CardsInUse(cards[..|cards| - 1]) + (if UsedOrZero(cards[|cards| - 1]) > 0 then 1 else 0)
  }

  /** `cards.some(c => c.used > 0)`. */
  predicate AnyCardInUse(cards: seq<Card>) {
    exists i :: 0 <= i < |cards| && UsedOrZero(cards[i]) > 0
  }

  /** A positive card total needs a card in use; the count of cards in use is
      positive exactly when some card is in use. */
  lemma {:induction false} CardsInUseFacts(cards: seq<Card>)
    ensures CardsInUse(cards) > 0 <==> AnyCardInUse(cards)
    ensures TotalCardUsed(cards) > 0 ==> CardsInUse(cards) > 0
    ensures PositiveCardUsed(cards) > 0 <==> AnyCardInUse(cards)
    decreases |cards|
  {
    if |cards| > 0 {
      var init := cards[..|cards| - 1];
      CardsInUseFacts(init);
      if AnyCardInUse(init) {
        var i :| 0 <= i < |init| && UsedOrZero(init[i]) > 0;
        assert cards[i] == init[i];
      }
      if AnyCardInUse(cards) && UsedOrZero(cards[|cards| - 1]) <= 0 {
        var i :| 0 <= i < |cards| && UsedOrZero(cards[i]) > 0;
        assert init[i] == cards[i];
      }
      NonPositiveTotal(init);
    }
  }

  /** With no card in use the card total is not positive. */
  lemma {:induction false} NonPositiveTotal(cards: seq<Card>)
    ensures CardsInUse(cards) == 0 ==> TotalCardUsed(cards) <= 0
    decreases |cards|
  {
    if |cards| > 0 {
      NonPositiveTotal(cards[..|cards| - 1]);
    }
  }

  /** A value read from a parsed JSON object for one key: absent or another
      falsy value, a truthy value that is not an array, or an array. */
  datatype Field<T> = Absent | NotAnArray | AnArray(items: seq<T>)

  /** What local storage (or an imported file) holds under the app's key:
      nothing, text that is not JSON, or a parsed object. */
  datatype Stored =
    | NothingStored
    | Unparsable
    | Parsed(transactions: Field<Transaction>, cards: Field<Card>,
             goals: Field<Goal>, budgets: Field<Goal>)

  /** `Array.isArray(x) ? x : []`. */
  function ArrayOrEmpty<T>(f: Field<T>): seq<T> {
    if f.AnArray? then f.items else []
  }
}
