/** The expense list of the budget tracker: its records, the total spent, the
    positional edits the request handlers make, and the working copy that a
    handler loads and mutates in place before saving it. */
module Ledger {

  /** One recorded outflow. Amounts are exact reals, not binary floats. */
  datatype Expense = Expense(description: string, amount: real)

  /** The budget and the ordered expenses, as written to and read from the
      persisted document. */
  datatype Document = Document(budget: real, expenses: seq<Expense>)

  /** The document used when nothing usable is stored: budget 0, no expenses. */
  const EmptyDocument := Document(0.0, [])

  /** Sum of the amounts, accumulated from the left as Python's `sum` does. */
  function Sum(expenses: seq<Expense>): real
  {
    if expenses == [] then 0.0
    else Sum(expenses[..|expenses| - 1]) + expenses[|expenses| - 1].amount
  }

  /** The sum distributes over concatenation. */
  lemma {:induction false} SumConcat(a: seq<Expense>, b: seq<Expense>)
    ensures Sum(a + b) == Sum(a) + Sum(b)
    decreases |b|
  {
    if b == [] {
      assert a + b == a;
    } else {
      var n := |b| - 1;
      assert (a + b)[..|a + b| - 1] == a + b[..n];
      SumConcat(a, b[..n]);
    }
  }

  /** Appending an expense raises the total spent by exactly its amount. */
  lemma SumAppend(expenses: seq<Expense>, e: Expense)
    ensures Sum(expenses + [e]) == Sum(expenses) + e.amount
  {
    assert (expenses + [e])[..|expenses|] == expenses;
  }

  /** The list with the element at `index` taken out; the others keep their
      order. */
  function RemovedAt(expenses: seq<Expense>, index: nat): (r: seq<Expense>)
    requires index < |expenses|
    ensures |r| == |expenses| - 1
    ensures forall j :: 0 <= j < index ==> r[j] == expenses[j]
    ensures forall j :: index <= j < |r| ==> r[j] == expenses[j + 1]
    ensures Sum(r) == Sum(expenses) - expenses[index].amount
  {
    var r := expenses[..index] + expenses[index + 1..];
    assert expenses == expenses[..index] + [expenses[index]] + expenses[index + 1..];
    SumConcat(expenses[..index] + [expenses[index]], expenses[index + 1..]);
    SumAppend(expenses[..index], expenses[index]);
    SumConcat(expenses[..index], expenses[index + 1..]);
    r
  }

  /** The list with the element at `index` replaced by `e`; every other
      position is unchanged. */
  function ReplacedAt(expenses: seq<Expense>, index: nat, e: Expense): (r: seq<Expense>)
    requires index < |expenses|
    ensures |r| == |expenses|
    ensures r[index] == e
    ensures forall j :: 0 <= j < |r| && j != index ==> r[j] == expenses[j]
    ensures Sum(r) == Sum(expenses) - expenses[index].amount + e.amount
  {
    var r := expenses[index := e];
    assert expenses == expenses[..index] + [expenses[index]] + expenses[index + 1..];
    assert r == expenses[..index] + [e] + expenses[index + 1..];
    SumConcat(expenses[..index] + [expenses[index]], expenses[index + 1..]);
    SumConcat(expenses[..index] + [e], expenses[index + 1..]);
    SumAppend(expenses[..index], expenses[index]);
    SumAppend(expenses[..index], e);
    r
  }

  /** The `(initial_budget, expenses)` pair a handler holds after loading:
      the expense list is mutated in place, the budget is only passed on. */
  class WorkingCopy {
    var budget: real
    var expenses: seq<Expense>

    constructor (doc: Document)
      ensures budget == doc.budget && expenses == doc.expenses
    {
      budget := doc.budget;
      expenses := doc.expenses;
    }

    /** `expenses.append(e)`. */
    method Append(e: Expense)
      modifies this
      ensures expenses == old(expenses) + [e]
      ensures |expenses| == |old(expenses)| + 1 && expenses[|expenses| - 1] == e
      ensures budget == old(budget)
      ensures Sum(expenses) == Sum(old(expenses)) + e.amount
    {
      SumAppend(expenses, e);
      expenses := expenses + [e];
    }

    /** `expenses.pop(index)`, for an index the caller has checked. */
    method Pop(index: nat) returns (removed: Expense)
      requires index < |expenses|
      modifies this
      ensures removed == old(expenses)[index]
      ensures expenses == RemovedAt(old(expenses), index)
      ensures budget == old(budget)
    {
      removed := expenses[index];
      expenses := RemovedAt(expenses, index);
    }

    /** `expenses[index] = e`, for an index the caller has checked. */
    method Replace(index: nat, e: Expense)
      requires index < |expenses|
      modifies this
      ensures expenses == ReplacedAt(old(expenses), index, e)
      ensures budget == old(budget)
    {
      expenses := ReplacedAt(expenses, index, e);
    }
  }
}
