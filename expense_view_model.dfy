/** The Android `ExpenseViewModel`: a single `ExpenseUiState` that each of
    `addExpense`, `addRecurring` and `saveBudget` moves to loading at once
    and, when the repository call has finished, to success or to an error
    message. The repository call runs in a coroutine; it is modelled as two
    steps, `Submit` before the launch and `Finish` with the call's outcome. */
module ExpenseViewModel {
  import opened Common

  datatype ExpenseUiState = ExpenseUiState(isLoading: bool, isSuccess: bool, error: Option<string>)

  /** `ExpenseUiState()`: every field at its default. */
  const Initial := ExpenseUiState(false, false, None)

  /** What the repository call gave: a successful `Result`, a failed one
      (with its exception's message, if any) or a thrown exception. */
  datatype Outcome = Succeeded | Failed(message: Option<string>) | Threw(message: Option<string>)

  const AddExpenseFailure := "Failed to add expense"
  const AddRecurringFailure := "Failed to add recurring transaction"
  const SaveBudgetFailure := "Failed to save budget"

  /** The state the coroutine leaves: loading over, and either success or
      the outcome's message (`fallback` when it has none). The other field
      is copied from `s`. */
  function Finished(s: ExpenseUiState, outcome: Outcome, fallback: string): (r: ExpenseUiState)
    ensures !r.isLoading
    ensures outcome.Succeeded? ==> r.isSuccess && r.error == s.error
    ensures !outcome.Succeeded? ==> r.isSuccess == s.isSuccess && r.error.Some?
    ensures !outcome.Succeeded? && outcome.message.Some? ==> r.error == outcome.message
    ensures !outcome.Succeeded? && outcome.message.None? ==> r.error == Some(fallback)
  {
    match outcome
    case Succeeded => s.(isLoading := false, isSuccess := true)
    case Failed(m) => s.(isLoading := false, error := Some(if m.Some? then m.value else fallback))
    case Threw(m) => s.(isLoading := false, error := Some(if m.Some? then m.value else fallback))
  }

  /** A failure after an earlier success leaves `isSuccess` set beside the
      error: nothing but `clearState` resets it. */
  lemma FailureKeepsEarlierSuccess()
    ensures var s := Finished(Initial, Succeeded, AddExpenseFailure).(isLoading := true, error := None);
            var r := Finished(s, Failed(None), AddExpenseFailure);
            r.isSuccess && r.error == Some(AddExpenseFailure)
  {
  }

  /** `checkBudgetAlert`'s test `spent / limit * 100 >= threshold`, in exact
      arithmetic: for a positive limit it is `100 * spent >= threshold *
      limit`. Dividing by a zero limit gives an infinity (or NaN for a zero
      spend), so then only a positive spend reaches any threshold. */
  function AlertShown(currentSpent: int, budgetLimit: int, threshold: int): (shown: bool)
    ensures budgetLimit > 0 ==> (shown <==> 100 * currentSpent >= threshold * budgetLimit)
    ensures budgetLimit == 0 ==> (shown <==> currentSpent > 0)
  {
    if budgetLimit == 0 then currentSpent > 0
    else
      var percentage := (currentSpent as real / budgetLimit as real) * 100.0;
      AlertRealToInt(currentSpent, budgetLimit, threshold);
      percentage >= threshold as real
  }

  lemma AlertRealToInt(currentSpent: int, budgetLimit: int, threshold: int)
    requires budgetLimit != 0
    ensures budgetLimit > 0 ==>
              ((currentSpent as real / budgetLimit as real) * 100.0 >= threshold as real
               <==> 100 * currentSpent >= threshold * budgetLimit)
  {
    if budgetLimit > 0 {
      var q := currentSpent as real / budgetLimit as real;
      assert q * budgetLimit as real == currentSpent as real;
      assert (q * 100.0 >= threshold as real) <==> (q * 100.0 * budgetLimit as real >= threshold as real * budgetLimit as real);
    }
  }

  /** 24.00 spent of a 30.00 limit is exactly at an 80 % threshold, which
      counts as reached; one cent less does not. */
  lemma AlertAtThreshold()
    ensures AlertShown(2400, 3000, 80)
    ensures !AlertShown(2399, 3000, 80)
  {
  }

  class ExpenseViewModel {
    var uiState: ExpenseUiState

    constructor ()
      ensures uiState == Initial
    {
      uiState := Initial;
    }

    /** The synchronous part of each action: loading, error cleared, the
        success flag left as it was. */
    method Submit()
      modifies this
      ensures uiState == old(uiState).(isLoading := true, error := None)
    {
      uiState := uiState.(isLoading := true, error := None);
    }

    /** The coroutine's update once the repository call is over. */
    method Finish(outcome: Outcome, fallback: string)
      modifies this
      ensures uiState == Finished(old(uiState), outcome, fallback)
    {
      match outcome
      case Succeeded =>
        uiState := uiState.(isLoading := false, isSuccess := true);
      case Failed(m) =>
        uiState := uiState.(isLoading := false, error := Some(if m.Some? then m.value else fallback));
      case Threw(m) =>
        uiState := uiState.(isLoading := false, error := Some(if m.Some? then m.value else fallback));
    }

    /** `addExpense` run to completion: success leaves no error; a failure
        shows the repository's message or "Failed to add expense". */
    method AddExpense(outcome: Outcome)
      modifies this
      ensures uiState == Finished(old(uiState).(isLoading := true, error := None), outcome, AddExpenseFailure)
      ensures outcome.Succeeded? ==> uiState == ExpenseUiState(false, true, None)
    {
      Submit();
      Finish(outcome, AddExpenseFailure);
    }

    /** `addRecurring` run to completion. */
    method AddRecurring(outcome: Outcome)
      modifies this
      ensures uiState == Finished(old(uiState).(isLoading := true, error := None), outcome, AddRecurringFailure)
      ensures outcome.Succeeded? ==> uiState == ExpenseUiState(false, true, None)
    {
      Submit();
      Finish(outcome, AddRecurringFailure);
    }

    /** `saveBudget` run to completion. */
    method SaveBudget(outcome: Outcome)
      modifies this
      ensures uiState == Finished(old(uiState).(isLoading := true, error := None), outcome, SaveBudgetFailure)
      ensures outcome.Succeeded? ==> uiState == ExpenseUiState(false, true, None)
    {
      Submit();
      Finish(outcome, SaveBudgetFailure);
    }

    /** `clearState`: back to the defaults, whatever came before. */
    method ClearState()
      modifies this
      ensures uiState == Initial && !uiState.isLoading && !uiState.isSuccess && uiState.error == None
    {
      uiState := ExpenseUiState(false, false, None);
    }
  }
}
