/**
 * The Dashboard page's state and its four handlers. The page holds the cached
 * expense list and the add-form draft; every handler leaves early on a failed
 * presence check or a declined confirmation, otherwise sends one request and
 * patches the list only when that request succeeds. A failed request is only
 * logged, so it leaves every field as it was.
 *
 * The network, `window.confirm` and `prompt` are outside the model: their
 * answers are parameters, and each handler returns the request it sent.
 */
module Dashboard {
  import opened Wrappers
  import opened Expenses

  /** What a request came back with: a payload, or a rejected promise. */
  datatype Reply<T> = Ok(data: T) | Failed

  /** A request whose response body the handler ignores (delete and update). */
  datatype Outcome = Succeeded | Rejected

  /** The requests the page sends, each with the body it carries. */
  datatype Request =
    | List                                  // GET /api/expenses
    | Create(body: Fields)                  // POST /api/expenses
    | Delete(id: ExpenseId)                 // DELETE /api/expenses/{id}
    | Update(id: ExpenseId, body: Fields)   // PUT /api/expenses/{id}

  class ExpenseDashboard {
    /** The cached list, in server order and then append order. */
    var expenses: seq<Expense>
    /** The add-form draft. */
    var title: string
    var amount: string
    var category: string
    var date: string

    /** The draft as one value, the body a create would send. */
    function Draft(): Fields
      reads this
    {
      Fields(title, amount, category, date)
    }

    /** A freshly mounted page: no expenses and an empty draft. */
    constructor ()
      ensures expenses == []
      ensures Draft() == Fields([], [], [], [])
    {
      expenses := [];
      title, amount, category, date := [], [], [], [];
    }

    // -------------------------------------------------------------------------
    // The form's onChange setters
    // -------------------------------------------------------------------------

    method SetTitle(s: string)
      modifies this
      ensures Draft() == old(Draft()).(title := s) && expenses == old(expenses)
    {
      title := s;
    }

    method SetAmount(s: string)
      modifies this
      ensures Draft() == old(Draft()).(amount := s) && expenses == old(expenses)
    {
      amount := s;
    }

    method SetCategory(s: string)
      modifies this
      ensures Draft() == old(Draft()).(category := s) && expenses == old(expenses)
    {
      category := s;
    }

    method SetDate(s: string)
      modifies this
      ensures Draft() == old(Draft()).(date := s) && expenses == old(expenses)
    {
      date := s;
    }

    // -------------------------------------------------------------------------
    // Handlers
    // -------------------------------------------------------------------------

    /**
     * Load on mount: the list is replaced by the server's list on success and
     * kept on failure; the draft is never touched.
     */
    method Load(reply: Reply<seq<Expense>>) returns (sent: Request)
      modifies this
      ensures sent == List
      ensures expenses == (if reply.Ok? then reply.data else old(expenses))
      ensures Draft() == old(Draft())
    {
      sent := List;
      match reply {
        case Ok(data) => expenses := data;
        case Failed =>
      }
    }

    /**
     * Submit of the add form. An incomplete draft sends nothing and changes
     * nothing. Otherwise the draft is posted; on success the server's record is
     * appended and the draft cleared, on failure both are kept.
     */
    method AddExpense(reply: Reply<Expense>) returns (sent: Option<Request>)
      modifies this
      ensures sent == (if Complete(old(Draft())) then Some(Create(old(Draft()))) else None)
      ensures sent.Some? && reply.Ok? ==>
        expenses == Appended(old(expenses), reply.data) && Draft() == Fields([], [], [], [])
      ensures sent.None? || reply.Failed? ==>
        expenses == old(expenses) && Draft() == old(Draft())
    {
      if !Complete(Draft()) {
        return None;
      }
      sent := Some(Create(Draft()));
      match reply {
        case Ok(created) =>
          expenses := Appended(expenses, created);
          title, amount, category, date := [], [], [], [];
        case Failed =>
      }
    }

    /**
     * Delete button. Without confirmation nothing is sent; otherwise the delete
     * is sent, and on success every record with that id is filtered out.
     */
    method DeleteExpense(id: ExpenseId, confirmed: bool, outcome: Outcome) returns (sent: Option<Request>)
      modifies this
      ensures sent == (if confirmed then Some(Delete(id)) else None)
      ensures expenses == (if confirmed && outcome.Succeeded? then RemoveId(old(expenses), id) else old(expenses))
      ensures Draft() == old(Draft())
    {
      if !confirmed {
        return None;
      }
      sent := Some(Delete(id));
      if outcome.Succeeded? {
        expenses := RemoveId(expenses, id);
      }
    }

    /**
     * Update button on the row `clicked`. Unless all four prompts are answered
     * nothing is sent; otherwise the new fields are put under the clicked id,
     * and on success every record with that id becomes the clicked record with
     * the new fields laid over it.
     */
    method UpdateExpense(clicked: Expense, answers: Prompts, outcome: Outcome) returns (sent: Option<Request>)
      modifies this
      ensures Collect(answers).None? ==> sent.None?
      ensures Collect(answers).Some? ==> sent == Some(Update(clicked.id, Collect(answers).value))
      ensures expenses == (if sent.Some? && outcome.Succeeded?
                           then ReplaceId(old(expenses), clicked.id, Overlay(clicked, Collect(answers).value))
                           else old(expenses))
      ensures Draft() == old(Draft())
    {
      var fields := Collect(answers);
      if fields.None? {
        return None;
      }
      sent := Some(Update(clicked.id, fields.value));
      if outcome.Succeeded? {
        expenses := ReplaceId(expenses, clicked.id, Overlay(clicked, fields.value));
      }
    }
  }

  /**
   * The page's handlers keep ids unique as long as the server hands out unique
   * lists and fresh ids: a walk through load, add, update and delete.
   */
  method UniqueIdsScenario(page: ExpenseDashboard, loaded: seq<Expense>, created: Expense,
                           clicked: Expense, answers: Prompts, gone: ExpenseId)
    requires UniqueIds(loaded)
    requires Absent(loaded, created.id)
    modifies page
  {
    var _ := page.Load(Ok(loaded));
    page.SetTitle("Bus");
    page.SetAmount("50");
    page.SetCategory("Transport");
    page.SetDate("2024-01-02");
    var sent := page.AddExpense(Ok(created));
    assert sent == Some(Create(Fields("Bus", "50", "Transport", "2024-01-02")));
    AppendedUnique(loaded, created);
    assert page.expenses == Appended(loaded, created);
    assert page.Draft() == Fields([], [], [], []);
    var before := page.expenses;
    sent := page.UpdateExpense(clicked, answers, Succeeded);
    if sent.Some? {
      ReplaceIdKeepsUnique(before, clicked.id, Overlay(clicked, Collect(answers).value));
      UpdateKeepsIds(before, clicked.id, Overlay(clicked, Collect(answers).value));
      assert Ids(page.expenses) == Ids(before);
    }
    assert UniqueIds(page.expenses);
    before := page.expenses;
    sent := page.DeleteExpense(gone, true, Succeeded);
    RemoveIdKeepsUnique(before, gone);
    assert UniqueIds(page.expenses);
    forall e | e in page.expenses ensures e.id != gone {
      RemoveIdMembers(before, gone, e);
    }
  }

  /**
   * The documented walk-through: load one record, add a second, then decline
   * and confirm a delete.
   */
  method LunchBusScenario()
  {
    var lunch := Expense(1, "Lunch", "200", "Food", "2024-01-01");
    var bus := Expense(2, "Bus", "50", "Transport", "2024-01-02");
    var page := new ExpenseDashboard();
    var _ := page.Load(Ok([lunch]));
    assert page.expenses == [lunch];

    page.SetTitle("Bus");
    page.SetAmount("50");
    page.SetCategory("Transport");
    page.SetDate("2024-01-02");
    var sent := page.AddExpense(Ok(bus));
    assert sent == Some(Create(Fields("Bus", "50", "Transport", "2024-01-02")));
    assert page.expenses == [lunch, bus];

    sent := page.DeleteExpense(1, false, Succeeded);
    assert sent == None && page.expenses == [lunch, bus];

    sent := page.DeleteExpense(1, true, Succeeded);
    assert [lunch, bus][0].id == 1;
    RemoveIdUnique([lunch, bus], 0);
    assert page.expenses == [bus];
  }

  /**
   * The documented walk-through, continued: renaming the one remaining record,
   * then an update whose date prompt was cancelled.
   */
  method BusPassScenario(page: ExpenseDashboard)
    modifies page
  {
    var bus := Expense(2, "Bus", "50", "Transport", "2024-01-02");
    var _ := page.Load(Ok([bus]));
    var answers := Prompts(Some("Bus Pass"), Some("50"), Some("Transport"), Some("2024-01-02"));
    var sent := page.UpdateExpense(bus, answers, Succeeded);
    ReplaceIdUnique([bus], 0, Overlay(bus, Collect(answers).value));
    assert page.expenses == [Expense(2, "Bus Pass", "50", "Transport", "2024-01-02")];

    sent := page.UpdateExpense(bus, answers.(date := None), Succeeded);
    assert sent == None;
  }
}
