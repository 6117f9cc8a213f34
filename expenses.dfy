/** The expenses screen (src/components/Expenses.js): the total and the average
    of the listed expenses, and the form that creates or updates one expense.
    Server calls are inputs: whether a save succeeded and what the reload
    returned. A number that `parseFloat` cannot read is NaN, modelled as None;
    NaN spreads through the sum. */
module Expenses {
  import opened JsText
  import opened Storage
  import opened Auth
  import opened Routing

  /** An expense as the server lists it; an absent text field is "". */
  datatype ExpenseRecord = ExpenseRecord(
    uid: Option<string>, id: Option<string>, description: string, amount: string, category: string)

  /** `parseFloat(expense.amount || 0)`: an empty amount counts 0. */
  function AmountValue(e: ExpenseRecord): Option<real> {
    if e.amount == "" then Some(0.0) else ParseFloat(e.amount)
  }

  /** Addition where None (NaN) absorbs everything. */
  function AddNumbers(a: Option<real>, b: Option<real>): (r: Option<real>)
    ensures r.Some? <==> a.Some? && b.Some?
  {
    if a.Some? && b.Some? then Some(a.value + b.value) else None
  }

  /** The amounts as numbers, in list order. */
  function Amounts(expenses: seq<ExpenseRecord>): (r: seq<Option<real>>)
    ensures |r| == |expenses|
    ensures forall i :: 0 <= i < |expenses| ==> r[i] == AmountValue(expenses[i])
  {
    seq(|expenses|, i requires 0 <= i < |expenses| => AmountValue(expenses[i]))
  }

  /** A `reduce` from 0 over numbers that may be NaN. */
  function SumNumbers(xs: seq<Option<real>>): Option<real> {
    if xs == [] then Some(0.0) else AddNumbers(SumNumbers(xs[..|xs| - 1]), xs[|xs| - 1])
  }

  /** `totalExpenses`. */
  function Total(expenses: seq<ExpenseRecord>): Option<real> {
    SumNumbers(Amounts(expenses))
  }

  lemma {:induction false} SumIsNumber(xs: seq<Option<real>>)
    ensures SumNumbers(xs).Some? <==> forall i :: 0 <= i < |xs| ==> xs[i].Some?
    decreases |xs|
  {
    if xs != [] {
      var init := xs[..|xs| - 1];
      SumIsNumber(init);
      assert forall i :: 0 <= i < |init| ==> init[i] == xs[i];
    }
  }

  /** The total is NaN exactly when some amount does not read as a number. */
  lemma TotalIsNumber(expenses: seq<ExpenseRecord>)
    ensures Total(expenses).Some? <==> forall i :: 0 <= i < |expenses| ==> AmountValue(expenses[i]).Some?
  {
    var xs := Amounts(expenses);
    SumIsNumber(xs);
    assert forall i :: 0 <= i < |expenses| ==> xs[i] == AmountValue(expenses[i]);
  }

  lemma {:induction false} SumAppend(a: seq<Option<real>>, b: seq<Option<real>>)
    ensures SumNumbers(a + b) == AddNumbers(SumNumbers(a), SumNumbers(b))
    decreases |b|
  {
    if b == [] {
      assert a + b == a;
    } else {
      var init := b[..|b| - 1];
      assert (a + b)[..|a + b| - 1] == a + init;
      SumAppend(a, init);
    }
  }

  /** The total of two lists together is the sum of their totals. */
  lemma TotalAppend(a: seq<ExpenseRecord>, b: seq<ExpenseRecord>)
    ensures Total(a + b) == AddNumbers(Total(a), Total(b))
  {
    assert Amounts(a + b) == Amounts(a) + Amounts(b);
    SumAppend(Amounts(a), Amounts(b));
  }

  lemma {:induction false} SumOfWholes(values: seq<int>)
    ensures SumNumbers(seq(|values|, i requires 0 <= i < |values| => Some(values[i] as real))) == Some(SumInts(values) as real)
    decreases |values|
  {
    if values != [] {
      var n := |values| - 1;
      SumOfWholes(values[..n]);
      var xs := seq(|values|, i requires 0 <= i < |values| => Some(values[i] as real));
      assert xs[..n] == seq(n, i requires 0 <= i < n => Some(values[..n][i] as real));
    }
  }

  /** Amounts written as whole numbers add up to the sum of those numbers. */
  lemma TotalOfWholeAmounts(expenses: seq<ExpenseRecord>, values: seq<int>)
    requires |values| == |expenses|
    requires forall i :: 0 <= i < |expenses| ==> expenses[i].amount == IntToString(values[i])
    ensures Total(expenses) == Some(SumInts(values) as real)
  {
    forall i | 0 <= i < |expenses|
      ensures AmountValue(expenses[i]) == Some(values[i] as real)
    {
      WholeAmount(expenses[i], values[i]);
    }
    assert Amounts(expenses) == seq(|values|, i requires 0 <= i < |values| => Some(values[i] as real));
    SumOfWholes(values);
  }

  lemma WholeAmount(e: ExpenseRecord, n: int)
    requires e.amount == IntToString(n)
    ensures AmountValue(e) == Some(n as real)
  {
    ParseFloatOfIntToString(n);
    NatToStringDigits(if n < 0 then -n else n);
  }

  /** "Avg Expense": 0 for no expenses, else the total over the count. */
  function Average(expenses: seq<ExpenseRecord>): Option<real> {
    if |expenses| == 0 then Some(0.0) else Quotient(Total(expenses), |expenses|)
  }

  /** `total / count`, NaN staying NaN. */
  function Quotient(total: Option<real>, count: nat): (r: Option<real>)
    requires count > 0
    ensures r.Some? <==> total.Some?
    ensures r.Some? ==> r.value * count as real == total.value
  {
    match total
    case Some(t) => Some(t / count as real)
    case None => None
  }

  /** The average is 0 for no expenses; otherwise, times the count, it gives the
      total back, and it is NaN exactly when the total is. */
  lemma AverageSpec(expenses: seq<ExpenseRecord>)
    ensures expenses == [] ==> Average(expenses) == Some(0.0)
    ensures expenses != [] ==> (Average(expenses).Some? <==> Total(expenses).Some?)
    ensures expenses != [] && Average(expenses).Some? ==> Average(expenses).value * |expenses| as real == Total(expenses).value
  {
  }

  /** The form's three fields. */
  datatype ExpenseForm = ExpenseForm(description: string, amount: string, category: string)

  const EmptyForm := ExpenseForm("", "", "")

  /** A submit needs all three fields non-empty. */
  predicate Complete(f: ExpenseForm) {
    f.description != "" && f.amount != "" && f.category != ""
  }

  datatype Field = Description | Amount | Category

  /** `handleInputChange`: only the named field takes the new value. */
  function WithField(f: ExpenseForm, field: Field, value: string): (r: ExpenseForm)
    ensures field == Description ==> r == f.(description := value)
    ensures field == Amount ==> r == f.(amount := value)
    ensures field == Category ==> r == f.(category := value)
  {
    match field
    case Description => f.(description := value)
    case Amount => f.(amount := value)
    case Category => f.(category := value)
  }

  /** `editingId`: null, or the id being edited, which is itself undefined when
      the record carries neither `_id` nor `id`. */
  datatype Editing = NotEditing | EditingId(id: Option<string>)

  /** The call a complete form makes. */
  datatype SaveRequest = Update(id: Option<string>, form: ExpenseForm) | Create(date: string, form: ExpenseForm)

  /** Update while an edit is open (even one without an id), otherwise create
      with the current date in front of the form's fields. */
  function RequestFor(editing: Editing, form: ExpenseForm, now: string): (r: SaveRequest)
    ensures r.form == form
    ensures r.Update? <==> editing.EditingId?
    ensures r.Update? ==> r.id == editing.id
    ensures r.Create? ==> r.date == now
  {
    match editing
    case EditingId(id) => Update(id, form)
    case NotEditing => Create(now, form)
  }

  /** What a submit did. */
  datatype SubmitOutcome = MissingFields | Sent(request: SaveRequest, saved: bool)

  /** The answer of `expensesAPI.getAll()`: the data (None when it is not an
      array), or a failure. */
  datatype LoadAnswer = Loaded(data: Option<seq<ExpenseRecord>>) | LoadFailed

  const FillAllFieldsMessage := "Please fill in all fields"
  const SaveFailedMessage := "Failed to save expense. Please try again."
  const LoadFailedMessage := "Failed to load expenses. Please make sure you are logged in and the backend is running."

  /** The list shown after a load: an array as given, anything else and a failure as empty. */
  function LoadedList(answer: LoadAnswer): seq<ExpenseRecord> {
    if answer.Loaded? then answer.data.GetOr([]) else []
  }

  class ExpensesPage {
    var expenses: seq<ExpenseRecord>
    var formData: ExpenseForm
    var editingId: Editing
    var loading: bool
    var showForm: bool
    var alert: Option<string>

    constructor ()
      ensures expenses == [] && formData == EmptyForm && editingId == NotEditing
      ensures loading && showForm && alert.None?
    {
      expenses := [];
      formData := EmptyForm;
      editingId := NotEditing;
      loading := true;
      showForm := true;
      alert := None;
    }

    /** `fetchExpenses`. */
    method FetchExpenses(answer: LoadAnswer)
      modifies this
      ensures expenses == LoadedList(answer) && !loading
      ensures alert == if answer.LoadFailed? then Some(LoadFailedMessage) else old(alert)
      ensures formData == old(formData) && editingId == old(editingId) && showForm == old(showForm)
    {
      loading := true;
      match answer {
        case Loaded(data) =>
          expenses := data.GetOr([]);
        case LoadFailed =>
          expenses := [];
          alert := Some(LoadFailedMessage);
      }
      loading := false;
    }

    method HandleInputChange(field: Field, value: string)
      modifies this
      ensures formData == WithField(old(formData), field, value)
      ensures expenses == old(expenses) && editingId == old(editingId) && showForm == old(showForm)
      ensures alert == old(alert) && loading == old(loading)
    {
      formData := WithField(formData, field, value);
    }

    /** `handleSubmit`: an incomplete form is refused and nothing is sent; a
        complete one is sent as RequestFor says. A failed save keeps the form
        and the edit; a successful one closes the edit, reloads the list, empties
        the form and hides it. */
    method HandleSubmit(now: string, saveSucceeded: bool, reload: LoadAnswer) returns (outcome: SubmitOutcome)
      modifies this
      ensures !Complete(old(formData)) ==>
        && outcome == MissingFields && alert == Some(FillAllFieldsMessage)
        && expenses == old(expenses) && formData == old(formData) && editingId == old(editingId)
        && showForm == old(showForm) && loading == old(loading)
      ensures Complete(old(formData)) ==>
        outcome == Sent(RequestFor(old(editingId), old(formData), now), saveSucceeded)
      ensures Complete(old(formData)) && !saveSucceeded ==>
        && alert == Some(SaveFailedMessage)
        && expenses == old(expenses) && formData == old(formData) && editingId == old(editingId)
        && showForm == old(showForm) && loading == old(loading)
      ensures Complete(old(formData)) && saveSucceeded ==>
        && expenses == LoadedList(reload) && formData == EmptyForm && editingId == NotEditing
        && !showForm && !loading
        && alert == if reload.LoadFailed? then Some(LoadFailedMessage) else old(alert)
    {
      if !Complete(formData) {
        alert := Some(FillAllFieldsMessage);
        return MissingFields;
      }
      var request := RequestFor(editingId, formData, now);
      outcome := Sent(request, saveSucceeded);
      if !saveSucceeded {
        alert := Some(SaveFailedMessage);
        return;
      }
      if editingId.EditingId? {
        editingId := NotEditing;
      }
      FetchExpenses(reload);
      formData := EmptyForm;
      showForm := false;
    }

    /** `handleEdit`: the record's fields go into the form, its `_id || id`
        becomes the edited id, and the form is shown. */
    method HandleEdit(expense: ExpenseRecord)
      modifies this
      ensures formData == ExpenseForm(expense.description, expense.amount, expense.category)
      ensures editingId == EditingId(Or(expense.uid, expense.id)) && showForm
      ensures expenses == old(expenses) && alert == old(alert) && loading == old(loading)
    {
      formData := ExpenseForm(expense.description, expense.amount, expense.category);
      editingId := EditingId(Or(expense.uid, expense.id));
      showForm := true;
    }

    /** `handleCancelEdit`: undoes what `handleEdit` set up. */
    method HandleCancelEdit()
      modifies this
      ensures editingId == NotEditing && formData == EmptyForm && !showForm
      ensures expenses == old(expenses) && alert == old(alert) && loading == old(loading)
    {
      editingId := NotEditing;
      formData := EmptyForm;
      showForm := false;
    }

    /** `handleLogout`. */
    method HandleLogout(ls: LocalStorage) returns (nav: Nav)
      modifies ls
      ensures ls.entries == SignedOut(old(ls.entries)) && nav == Nav(Login(None), false)
    {
      ClearUserData(ls);
      ls.RemoveItem(TokenKey);
      nav := Nav(Login(None), false);
    }
  }
}
