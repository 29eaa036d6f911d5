/** The XP transaction records the data gateway returns, shared by the XP graph and the profile. */
module Transactions {

  /** One XP transaction: its amount, its creation time (milliseconds since the epoch) and its path. */
  datatype Transaction = Transaction(amount: int, createdAt: int, path: string)

  /** The total of the amounts, accumulated from the left as the source's loops do. */
  function Sum(txs: seq<Transaction>): int
  {
    if txs == [] then 0 else Sum(txs[..|txs| - 1]) + txs[|txs| - 1].amount
  }

  /** Extending a prefix by one transaction adds that transaction's amount. */
  lemma SumStep(txs: seq<Transaction>, i: nat)
    requires i < |txs|
    ensures Sum(txs[..i + 1]) == Sum(txs[..i]) + txs[i].amount
  {
    assert txs[..i + 1][..i] == txs[..i];
  }

  /** True when no transaction has a negative amount. */
  predicate NonNegative(txs: seq<Transaction>)
  {
    forall k :: 0 <= k < |txs| ==> txs[k].amount >= 0
  }

  /** With non-negative amounts, a longer prefix never has a smaller total. */
  lemma {:induction false} SumMonotone(txs: seq<Transaction>, i: nat, j: nat)
    requires NonNegative(txs)
    requires i <= j <= |txs|
    ensures Sum(txs[..i]) <= Sum(txs[..j])
  {
    if i < j {
      SumMonotone(txs, i, j - 1);
      SumStep(txs, j - 1);
    }
  }
}
