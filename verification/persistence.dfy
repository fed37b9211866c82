/** Loading and saving the budget document. The file and its JSON text are
    not modelled; what a read of the file can come to is given as a `Disk`
    value instead. */
module Persistence {
  import opened Wrappers
  import opened Ledger

  /** What reading the budget file yields. `Decoded` holds the values of the
      `budget` and `expenses` keys of the decoded object, `None` for an
      absent key. `Unreadable` stands for every failure other than a JSON
      syntax error (a permission error, say), which loading does not catch. */
  datatype Disk =
    | Missing
    | Unreadable
    | Undecodable
    | Decoded(budget: Option<real>, expenses: Option<seq<Expense>>)

  /** Why loading raised instead of returning. */
  datatype LoadError = ReadFailed

  /** `load_budget_data`: a missing file or undecodable content gives the
      empty document; in a decoded object an absent `budget` is 0 and an
      absent `expenses` is the empty list. */
  function Load(disk: Disk): (r: Result<Document, LoadError>)
    ensures r.Failure? <==> disk.Unreadable?
    ensures disk.Missing? || disk.Undecodable? ==> r == Success(EmptyDocument)
    ensures disk.Decoded? ==> r.Success?
    ensures disk.Decoded? && disk.budget.None? ==> r.value.budget == 0.0
    ensures disk.Decoded? && disk.budget.Some? ==> r.value.budget == disk.budget.value
    ensures disk.Decoded? && disk.expenses.None? ==> r.value.expenses == []
    ensures disk.Decoded? && disk.expenses.Some? ==> r.value.expenses == disk.expenses.value
  {
    match disk
    case Missing => Success(EmptyDocument)
    case Unreadable => Failure(ReadFailed)
    case Undecodable => Success(EmptyDocument)
    case Decoded(b, es) =>
      Success(Document(
        if b.Some? then b.value else 0.0,
        if es.Some? then es.value else []))
  }

  /** `save_budget_data`: the file afterwards holds an object with both keys,
      and loading it gives back exactly the saved budget and expenses, in
      order. */
  function Save(doc: Document): (disk: Disk)
    ensures Load(disk) == Success(doc)
    ensures disk.Decoded?
  {
    Decoded(Some(doc.budget), Some(doc.expenses))
  }
}
