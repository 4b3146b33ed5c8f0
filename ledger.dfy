/** The running total shown in the header and in the history panel. */
module Ledger {

  import opened Types

  /** Reference definition: the sum of the amounts of a history. */
  function SumAmounts(history: seq<Session>): int {
    if history == [] then 0 else history[0].amount + SumAmounts(history[1..])
  }

  /** The reduction of App.tsx:70: a left fold adding each amount to the accumulator. */
  function FoldAmounts(acc: int, history: seq<Session>): int
    decreases |history|
  {
    if history == [] then acc else FoldAmounts(acc + history[0].amount, history[1..])
  }

  /** The left fold from `acc` adds the sum of the history to `acc`. */
  lemma {:induction false} FoldIsSum(acc: int, history: seq<Session>)
    ensures FoldAmounts(acc, history) == acc + SumAmounts(history)
    decreases |history|
  {
    if history != [] {
      FoldIsSum(acc + history[0].amount, history[1..]);
    }
  }

  /** `totalMoney`: the fold started at 0, which is the sum of every history amount. */
  function TotalMoney(history: seq<Session>): (total: int)
    ensures total == SumAmounts(history)
  {
    FoldIsSum(0, history);
    FoldAmounts(0, history)
  }

  /** Prepending a session raises the total by exactly its amount. */
  lemma TotalPrepend(s: Session, history: seq<Session>)
    ensures TotalMoney([s] + history) == s.amount + TotalMoney(history)
  {
    assert ([s] + history)[1..] == history;
  }

  /** A history of multiples of 1000 has a total that is a multiple of 1000. */
  lemma {:induction false} TotalOfThousands(history: seq<Session>)
    requires forall k :: 0 <= k < |history| ==> history[k].amount % 1000 == 0
    ensures TotalMoney(history) % 1000 == 0
  {
    if history != [] {
      TotalOfThousands(history[1..]);
      var h, t := history[0].amount, SumAmounts(history[1..]);
      assert h == 1000 * (h / 1000);
      assert t == 1000 * (t / 1000);
      assert h + t == 1000 * (h / 1000 + t / 1000);
    }
  }
}
