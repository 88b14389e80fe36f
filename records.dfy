// Records shared by the server (app.py) and the dashboard script (static/script.js):
// a transaction as the server lists it, and the income/expense/balance summary.

module Records {

  datatype Option<+T> = None | Some(value: T)

  const Income: string := "income"
  const Expense: string := "expense"

  /** One transaction as listed by the server: its row id, its `type` column
      (free text; the client only ever sends "income" or "expense"), its amount
      in the smallest currency unit, its description and its timestamp. */
  datatype Tx = Tx(id: nat, kind: string, amount: int, description: string, timestamp: int)

  datatype Summary = Summary(income: int, expense: int, balance: int)

  /** Sum of the amounts of the transactions of one kind (0 when there are none). */
  function SumKind(txs: seq<Tx>, kind: string): int
  {
    if txs == [] then 0
    else SumKind(txs[..|txs| - 1], kind) + (if txs[|txs| - 1].kind == kind then txs[|txs| - 1].amount else 0)
  }

  /** The summary a list of transactions determines: income and expense totals
      and their difference. */
  function Summarize(txs: seq<Tx>): (s: Summary)
    ensures s.balance == s.income - s.expense
    ensures txs == [] ==> s == Summary(0, 0, 0)
  {
    var income := SumKind(txs, Income);
    var expense := SumKind(txs, Expense);
    Summary(income, expense, income - expense)
  }

  lemma {:induction false} SumKindAppend(a: seq<Tx>, b: seq<Tx>, kind: string)
    ensures SumKind(a + b, kind) == SumKind(a, kind) + SumKind(b, kind)
    decreases |b|
  {
    if b == [] {
      assert a + b == a;
    } else {
      var b' := b[..|b| - 1];
      assert (a + b)[..|a + b| - 1] == a + b';
      SumKindAppend(a, b', kind);
    }
  }

  /** A sum by kind depends only on which transactions there are, not on their order. */
  lemma {:induction false} SumKindPermutation(a: seq<Tx>, b: seq<Tx>, kind: string)
    requires multiset(a) == multiset(b)
    ensures SumKind(a, kind) == SumKind(b, kind)
    decreases |a|
  {
    if a == [] {
      assert |b| == |multiset(b)| == 0;
    } else {
      var x := a[|a| - 1];
      var a' := a[..|a| - 1];
      assert a == a' + [x];
      assert multiset(a) == multiset(a') + multiset{x};
      assert x in multiset(b);
      var j :| 0 <= j < |b| && b[j] == x;
      RemoveAt(b, j);
      RemoveAtSum(b, j, kind);
      SumKindPermutation(a', b[..j] + b[j + 1..], kind);
      SumKindAppend(a', [x], kind);
    }
  }

  lemma RemoveAt(b: seq<Tx>, j: nat)
    requires j < |b|
    ensures multiset(b[..j] + b[j + 1..]) == multiset(b) - multiset{b[j]}
  {
    assert b == b[..j] + [b[j]] + b[j + 1..];
    assert multiset(b) == multiset(b[..j]) + multiset{b[j]} + multiset(b[j + 1..]);
  }

  lemma RemoveAtSum(b: seq<Tx>, j: nat, kind: string)
    requires j < |b|
    ensures SumKind(b, kind) == SumKind(b[..j] + b[j + 1..], kind) + SumKind([b[j]], kind)
  {
    assert b == b[..j] + [b[j]] + b[j + 1..];
    SumKindAppend(b[..j] + [b[j]], b[j + 1..], kind);
    SumKindAppend(b[..j], [b[j]], kind);
    SumKindAppend(b[..j], b[j + 1..], kind);
  }

  /** The summary of a list of transactions does not depend on their order. */
  lemma SummarizePermutation(a: seq<Tx>, b: seq<Tx>)
    requires multiset(a) == multiset(b)
    ensures Summarize(a) == Summarize(b)
  {
    SumKindPermutation(a, b, Income);
    SumKindPermutation(a, b, Expense);
  }

  /** A transaction whose type is neither "income" nor "expense" counts toward neither total. */
  lemma OtherKindsIgnored(a: seq<Tx>, t: Tx, b: seq<Tx>)
    requires t.kind != Income && t.kind != Expense
    ensures Summarize(a + [t] + b) == Summarize(a + b)
  {
    SumKindAppend(a + [t], b, Income);
    SumKindAppend(a + [t], b, Expense);
    SumKindAppend(a, b, Income);
    SumKindAppend(a, b, Expense);
    assert (a + [t])[..|a|] == a;
  }

  /** With no transaction of a kind, that kind's total is 0. */
  lemma {:induction false} SumKindAbsent(txs: seq<Tx>, kind: string)
    requires forall i :: 0 <= i < |txs| ==> txs[i].kind != kind
    ensures SumKind(txs, kind) == 0
  {
    if txs != [] {
      SumKindAbsent(txs[..|txs| - 1], kind);
    }
  }
}
