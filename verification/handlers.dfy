/** The request handlers of the budget tracker, without the web framework:
    each one reads the budget file, applies at most one change to the loaded
    expense list, writes the file back when it changed the list, and answers
    with a page, a redirect to the overview or a server error. */
module Handlers {
  import opened Wrappers
  import opened Ledger
  import opened Persistence

  /** What the overview page shows. */
  datatype Overview = Overview(budget: real, expenses: seq<Expense>, totalSpent: real, remaining: real)

  /** The handler's answer: the rendered overview, a redirect to it, or the
      generic "Internal Server Error" with status 500. */
  datatype Response = Page(view: Overview) | RedirectHome | ServerError

  /** True when `index` names an element of `expenses`, the guard of the
      delete and edit handlers. */
  predicate InRange(index: int, expenses: seq<Expense>)
  {
    0 <= index < |expenses|
  }

  /** The application: its only state is what the budget file holds. */
  class BudgetTracker {
    var disk: Disk

    constructor (disk: Disk)
      ensures this.disk == disk
    {
      this.disk := disk;
    }

    /** The `/` route: load, add up the amounts from the left, and subtract
        the total from the budget. A read error is not caught here, so the
        request fails with a server error. */
    method Index() returns (resp: Response)
      ensures Load(disk).Failure? <==> resp == ServerError
      ensures Load(disk).Success? ==>
                resp.Page? &&
                resp.view.budget == Load(disk).value.budget &&
                resp.view.expenses == Load(disk).value.expenses &&
                resp.view.totalSpent == Sum(Load(disk).value.expenses) &&
                resp.view.remaining == resp.view.budget - Sum(Load(disk).value.expenses)
    {
      var loaded := Load(disk);
      if loaded.Failure? {
        return ServerError;
      }
      var doc := loaded.value;
      var totalSpent := 0.0;
      var i := 0;
      while i < |doc.expenses|
        invariant 0 <= i <= |doc.expenses|
        invariant totalSpent == Sum(doc.expenses[..i])
      {
        assert doc.expenses[..i + 1][..i] == doc.expenses[..i];
        totalSpent := totalSpent + doc.expenses[i].amount;
        i := i + 1;
      }
      assert doc.expenses[..i] == doc.expenses;
      resp := Page(Overview(doc.budget, doc.expenses, totalSpent, doc.budget - totalSpent));
    }

    /** The `/add` route. `description` is `None` when the form field is
        absent; `amount` is `None` when the field is absent or does not parse
        as a number. Both are read before the file is loaded. */
    method AddExpense(description: Option<string>, amount: Option<real>) returns (resp: Response, saved: bool)
      modifies this
      ensures saved <==> description.Some? && amount.Some? && Load(old(disk)).Success?
      ensures saved <==> resp == RedirectHome
      ensures !saved ==> resp == ServerError && disk == old(disk)
      ensures saved ==>
                disk == Save(Document(
                  Load(old(disk)).value.budget,
                  Load(old(disk)).value.expenses + [Expense(description.value, amount.value)]))
    {
      if description.None? || amount.None? {
        return ServerError, false;
      }
      var loaded := Load(disk);
      if loaded.Failure? {
        return ServerError, false;
      }
      var working := new WorkingCopy(loaded.value);
      working.Append(Expense(description.value, amount.value));
      disk := Save(Document(working.budget, working.expenses));
      resp, saved := RedirectHome, true;
    }

    /** The `/delete/<index>` route: only an index inside the list removes an
        element and saves; any other index is ignored and still redirects. */
    method DeleteExpense(index: int) returns (resp: Response, saved: bool)
      modifies this
      ensures Load(old(disk)).Failure? ==> resp == ServerError && !saved
      ensures Load(old(disk)).Success? ==> resp == RedirectHome
      ensures saved <==> Load(old(disk)).Success? && InRange(index, Load(old(disk)).value.expenses)
      ensures !saved ==> disk == old(disk)
      ensures saved ==>
                disk == Save(Document(
                  Load(old(disk)).value.budget,
                  RemovedAt(Load(old(disk)).value.expenses, index)))
    {
      var loaded := Load(disk);
      if loaded.Failure? {
        return ServerError, false;
      }
      var working := new WorkingCopy(loaded.value);
      saved := false;
      if 0 <= index < |working.expenses| {
        var _ := working.Pop(index);
        disk := Save(Document(working.budget, working.expenses));
        saved := true;
      }
      resp := RedirectHome;
    }

    /** The `/edit/<index>` route: the form is read first, then an index
        inside the list has its element replaced and the file saved; any
        other index is ignored and still redirects. */
    method EditExpense(index: int, description: Option<string>, amount: Option<real>) returns (resp: Response, saved: bool)
      modifies this
      ensures description.None? || amount.None? || Load(old(disk)).Failure? ==> resp == ServerError && !saved
      ensures description.Some? && amount.Some? && Load(old(disk)).Success? ==> resp == RedirectHome
      ensures saved <==>
                description.Some? && amount.Some? && Load(old(disk)).Success? &&
                InRange(index, Load(old(disk)).value.expenses)
      ensures !saved ==> disk == old(disk)
      ensures saved ==>
                disk == Save(Document(
                  Load(old(disk)).value.budget,
                  ReplacedAt(Load(old(disk)).value.expenses, index, Expense(description.value, amount.value))))
    {
      if description.None? || amount.None? {
        return ServerError, false;
      }
      var loaded := Load(disk);
      if loaded.Failure? {
        return ServerError, false;
      }
      var working := new WorkingCopy(loaded.value);
      saved := false;
      if 0 <= index < |working.expenses| {
        working.Replace(index, Expense(description.value, amount.value));
        disk := Save(Document(working.budget, working.expenses));
        saved := true;
      }
      resp := RedirectHome;
    }
  }

  /** A request sequence on a store whose file does not exist yet: adding
      "coffee" at 3.50 creates the file, the overview then shows that one
      expense spent against a budget of 0, and deleting an index past the
      end changes nothing. */
  method CoffeeOnEmptyStore() returns (before: Response, after: Response)
    ensures before == Page(Overview(0.0, [Expense("coffee", 3.5)], 3.5, -3.5))
    ensures after == before
  {
    var app := new BudgetTracker(Missing);
    var _, _ := app.AddExpense(Some("coffee"), Some(3.5));
    before := app.Index();
    var _, saved := app.DeleteExpense(5);
    assert !saved;
    after := app.Index();
  }
}
